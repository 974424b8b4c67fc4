/** Three components order target groups independently: the Agent sorts and
    removes repeats, the Core sorts its request entries, the Broker collects an
    ordered set. All three compare byte strings lexicographically. */
module TargetGroups {
  import opened Wrappers
  import opened StrictContract

  // ----- Byte-wise order -----------------------------------------------------

  predicate Below(a: Group, b: Group) {
    if b == [] then false
    else if a == [] then true
    else if a[0] != b[0] then a[0] < b[0]
    else Below(a[1..], b[1..])
  }

  lemma {:induction false} BelowIrreflexive(a: Group)
    ensures !Below(a, a)
  {
    if a != [] { BelowIrreflexive(a[1..]); }
  }

  lemma {:induction false} BelowTransitive(a: Group, b: Group, c: Group)
    requires Below(a, b) && Below(b, c)
    ensures Below(a, c)
  {
    if a != [] && a[0] == b[0] == c[0] { BelowTransitive(a[1..], b[1..], c[1..]); }
  }

  lemma {:induction false} BelowTotal(a: Group, b: Group)
    ensures a == b || Below(a, b) || Below(b, a)
  {
    if a != [] && b != [] && a[0] == b[0] {
      BelowTotal(a[1..], b[1..]);
      if a[1..] == b[1..] { assert a == [a[0]] + a[1..] && b == [b[0]] + b[1..]; }
    }
  }

  /** Strictly ascending, hence without repeats. */
  predicate Ascending(s: seq<Group>) {
    forall i, j :: 0 <= i < j < |s| ==> Below(s[i], s[j])
  }

  predicate Sorted<T>(key: T -> Group, s: seq<T>) {
    forall i, j :: 0 <= i < j < |s| ==> !Below(key(s[j]), key(s[i]))
  }

  function Elements(s: seq<Group>): set<Group> {
    set i | 0 <= i < |s| :: s[i]
  }

  lemma FirstIsElement(s: seq<Group>)
    ensures s != [] ==> s[0] in Elements(s)
  {
  }

  /** A set of groups has one strictly ascending listing. */
  lemma {:induction false} AscendingUnique(a: seq<Group>, b: seq<Group>)
    requires Ascending(a) && Ascending(b) && Elements(a) == Elements(b)
    ensures a == b
  {
    if a == [] {
      FirstIsElement(b);
      return;
    }
    assert a[0] in Elements(b);
    var i :| 0 <= i < |b| && b[i] == a[0];
    assert b[0] in Elements(a);
    var j :| 0 <= j < |a| && a[j] == b[0];
    if i > 0 && j > 0 {
      assert Below(b[0], b[i]) && Below(a[0], a[j]);
      BelowTransitive(a[0], b[0], a[0]);
      BelowIrreflexive(a[0]);
    }
    assert a[0] == b[0];
    TailElements(a);
    TailElements(b);
    AscendingUnique(a[1..], b[1..]);
    assert a == [a[0]] + a[1..] && b == [b[0]] + b[1..];
  }

  lemma TailElements(a: seq<Group>)
    requires a != [] && Ascending(a)
    ensures Elements(a[1..]) == Elements(a) - {a[0]}
  {
    forall g ensures g in Elements(a[1..]) <==> g in Elements(a) - {a[0]} {
      if g in Elements(a[1..]) {
        var k :| 0 <= k < |a[1..]| && a[1..][k] == g;
        assert a[k + 1] == g;
        BelowIrreflexive(g);
      }
      if g in Elements(a) - {a[0]} {
        var k :| 0 <= k < |a| && a[k] == g;
        assert a[1..][k - 1] == g;
      }
    }
  }

  // ----- Sorting by group ----------------------------------------------------

  function Insert<T>(key: T -> Group, s: seq<T>, x: T): (r: seq<T>)
    ensures |r| == |s| + 1
    ensures multiset(r) == multiset(s) + multiset{x}
  {
    if s == [] then [x]
    else if Below(key(s[0]), key(x)) then
      assert s == [s[0]] + s[1..];
      [s[0]] + Insert(key, s[1..], x)
    else [x] + s
  }

  function SortBy<T>(key: T -> Group, s: seq<T>): (r: seq<T>)
    ensures |r| == |s|
    ensures multiset(r) == multiset(s)
  {
    if s == [] then []
    else
      assert s == [s[0]] + s[1..];
      Insert(key, SortBy(key, s[1..]), s[0])
  }

  lemma InsertMembers<T>(key: T -> Group, s: seq<T>, x: T)
    ensures forall y :: y in Insert(key, s, x) ==> y == x || y in s
  {
    forall y | y in Insert(key, s, x) ensures y == x || y in s {
      assert y in multiset(Insert(key, s, x));
    }
  }

  lemma SortedCons<T>(key: T -> Group, first: T, rest: seq<T>)
    requires Sorted(key, rest) && forall y :: y in rest ==> !Below(key(y), key(first))
    ensures Sorted(key, [first] + rest)
  {
    var all := [first] + rest;
    assert forall i :: 0 < i < |all| ==> all[i] == rest[i - 1] && all[i] in rest;
  }

  lemma SortedTail<T>(key: T -> Group, s: seq<T>)
    requires Sorted(key, s) && s != []
    ensures Sorted(key, s[1..]) && forall y :: y in s ==> y == s[0] || !Below(key(y), key(s[0]))
  {
  }

  lemma {:induction false} InsertSorted<T>(key: T -> Group, s: seq<T>, x: T)
    requires Sorted(key, s)
    ensures Sorted(key, Insert(key, s, x))
    decreases |s|
  {
    if s == [] { return; }
    SortedTail(key, s);
    if Below(key(s[0]), key(x)) {
      InsertSorted(key, s[1..], x);
      InsertMembers(key, s[1..], x);
      NotBelowBoth(key(s[0]), key(x));
      SortedCons(key, s[0], Insert(key, s[1..], x));
    } else {
      BelowTotal(key(s[0]), key(x));
      forall y | y in s ensures !Below(key(y), key(x)) {
        if Below(key(y), key(x)) && key(x) != key(s[0]) { BelowTransitive(key(y), key(x), key(s[0])); }
      }
      SortedCons(key, x, s);
    }
  }

  lemma NotBelowBoth(a: Group, b: Group)
    requires Below(a, b)
    ensures !Below(b, a)
  {
    if Below(b, a) {
      BelowTransitive(a, b, a);
      BelowIrreflexive(a);
    }
  }

  lemma {:induction false} SortBySorts<T>(key: T -> Group, s: seq<T>)
    ensures Sorted(key, SortBy(key, s))
  {
    if s != [] {
      SortBySorts(key, s[1..]);
      InsertSorted(key, SortBy(key, s[1..]), s[0]);
    }
  }

  // ----- The three canonical orders ------------------------------------------

  function Itself(g: Group): Group { g }

  /** The Agent: an unstable sort followed by the removal of adjacent repeats. */
  function SortedDistinct(s: seq<Group>): seq<Group> {
    Dedup(SortBy(Itself, s))
  }

  function Dedup(s: seq<Group>): seq<Group> {
    if |s| < 2 then s
    else if s[0] == s[1] then Dedup(s[1..])
    else [s[0]] + Dedup(s[1..])
  }

  /** The Broker: insertion into an ordered set. */
  function OrderedSet(s: seq<Group>): seq<Group> {
    if s == [] then [] else SetInsert(OrderedSet(s[1..]), s[0])
  }

  function SetInsert(s: seq<Group>, g: Group): seq<Group> {
    if s == [] then [g]
    else if s[0] == g then s
    else if Below(s[0], g) then [s[0]] + SetInsert(s[1..], g)
    else [g] + s
  }

  lemma {:induction false} DedupAscends(s: seq<Group>)
    requires Sorted(Itself, s)
    ensures Ascending(Dedup(s)) && Elements(Dedup(s)) == Elements(s)
    ensures s != [] ==> Dedup(s) != [] && Dedup(s)[0] == s[0]
  {
    if |s| < 2 { return; }
    assert s == [s[0]] + s[1..];
    DedupAscends(s[1..]);
    ElementsCons(s[0], s[1..]);
    if s[0] == s[1] {
      assert s[1] == s[1..][0];
      assert s[0] in Elements(s[1..]);
    } else {
      ElementsCons(s[0], Dedup(s[1..]));
      BelowTotal(s[0], s[1]);
      assert !Below(Itself(s[1]), Itself(s[0]));
      AscendingCons(s[0], Dedup(s[1..]));
    }
  }

  lemma ElementsCons(g: Group, s: seq<Group>)
    ensures Elements([g] + s) == {g} + Elements(s)
  {
    forall x ensures x in Elements([g] + s) <==> x in {g} + Elements(s) {
      if x in Elements(s) {
        var k :| 0 <= k < |s| && s[k] == x;
        assert ([g] + s)[k + 1] == x;
      }
      if x == g { assert ([g] + s)[0] == x; }
      if x in Elements([g] + s) && x != g {
        var k :| 0 <= k < |[g] + s| && ([g] + s)[k] == x;
        assert s[k - 1] == x;
      }
    }
  }

  lemma AscendingCons(g: Group, s: seq<Group>)
    requires Ascending(s) && (s != [] ==> Below(g, s[0]))
    ensures Ascending([g] + s)
  {
    var r := [g] + s;
    forall i, j | 0 <= i < j < |r| ensures Below(r[i], r[j]) {
      if i == 0 && j > 1 {
        assert Below(s[0], s[j - 1]);
        BelowTransitive(g, s[0], s[j - 1]);
      }
    }
  }

  lemma {:induction false} SetInsertAscends(s: seq<Group>, g: Group)
    requires Ascending(s)
    ensures Ascending(SetInsert(s, g)) && Elements(SetInsert(s, g)) == Elements(s) + {g}
    ensures SetInsert(s, g) != [] && (SetInsert(s, g)[0] == g || (s != [] && SetInsert(s, g)[0] == s[0]))
  {
    if s == [] { return; }
    assert s == [s[0]] + s[1..];
    if s[0] == g {
      assert g in Elements(s);
    } else if Below(s[0], g) {
      SetInsertAscends(s[1..], g);
      ElementsCons(s[0], SetInsert(s[1..], g));
      ElementsCons(s[0], s[1..]);
      AscendingCons(s[0], SetInsert(s[1..], g));
    } else {
      BelowTotal(s[0], g);
      ElementsCons(g, s);
      AscendingCons(g, s);
    }
  }

  lemma {:induction false} OrderedSetAscends(s: seq<Group>)
    ensures Ascending(OrderedSet(s)) && Elements(OrderedSet(s)) == Elements(s)
  {
    if s != [] {
      OrderedSetAscends(s[1..]);
      SetInsertAscends(OrderedSet(s[1..]), s[0]);
      assert s == [s[0]] + s[1..];
      ElementsCons(s[0], s[1..]);
    }
  }

  lemma SortedDistinctAscends(s: seq<Group>)
    ensures Ascending(SortedDistinct(s)) && Elements(SortedDistinct(s)) == Elements(s)
  {
    SortBySorts(Itself, s);
    DedupAscends(SortBy(Itself, s));
    SameMultisetElements(SortBy(Itself, s), s);
  }

  lemma SameMultisetElements(a: seq<Group>, b: seq<Group>)
    requires multiset(a) == multiset(b)
    ensures Elements(a) == Elements(b)
  {
    forall g ensures g in Elements(a) <==> g in Elements(b) {
      assert g in Elements(a) <==> g in multiset(a);
      assert g in Elements(b) <==> g in multiset(b);
    }
  }

  /** Agent and Broker list the same groups in the same order. */
  lemma AgentAndBrokerAgree(s: seq<Group>)
    ensures SortedDistinct(s) == OrderedSet(s)
    ensures SortedDistinct(OrderedSet(s)) == OrderedSet(s)
  {
    OrderedSetAscends(s);
    SortedDistinctAscends(s);
    SortedDistinctAscends(OrderedSet(s));
    AscendingUnique(SortedDistinct(s), OrderedSet(s));
    AscendingUnique(SortedDistinct(OrderedSet(s)), OrderedSet(s));
  }

  lemma {:induction false} SortKeepsSorted<T>(key: T -> Group, s: seq<T>)
    requires Sorted(key, s)
    ensures SortBy(key, s) == s
  {
    if s != [] {
      assert s == [s[0]] + s[1..];
      SortKeepsSorted(key, s[1..]);
    }
  }

  /** Entries listed by ascending group are left where they are by any further sort. */
  lemma SortKeepsAscending<T>(key: T -> Group, s: seq<T>)
    requires forall i, j :: 0 <= i < j < |s| ==> Below(key(s[i]), key(s[j]))
    ensures SortBy(key, s) == s
  {
    forall i, j | 0 <= i < j < |s| ensures !Below(key(s[j]), key(s[i])) { NotBelowBoth(key(s[i]), key(s[j])); }
    SortKeepsSorted(key, s);
  }

  /** The target groups a policy names, in entry order. */
  function ProxyGroups(entries: seq<Entry>): seq<Group> {
    if entries == [] then []
    else if entries[0].action == Proxy && entries[0].targetGroup.Some? then
      [entries[0].targetGroup.value] + ProxyGroups(entries[1..])
    else ProxyGroups(entries[1..])
  }

  lemma {:induction false} NoProxyGroups(entries: seq<Entry>)
    requires forall i :: 0 <= i < |entries| ==> entries[i].action != Proxy
    ensures ProxyGroups(entries) == []
  {
    if entries != [] { NoProxyGroups(entries[1..]); }
  }
}
