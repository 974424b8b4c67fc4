/** The Agent's journal of accepted Core actions: staged requests waiting for their
    response, and per key the latest accepted line, bounded to 128 entries. */
module ReplayJournal {
  import opened Wrappers
  import opened Bytes
  import opened Sets
  import opened TargetGroups

  const MAX_REPLAY_ENTRIES: nat := 128
  const MAX_GROUP_BYTES: nat := 512

  /** Text as its UTF-8 bytes, which is how keys are compared and measured. */
  type Text = seq<Byte>

  /** A name of plain ASCII letters as its bytes. */
  function Ascii(s: string): (r: Text)
    ensures |r| == |s|
  {
    seq(|s|, i requires 0 <= i < |s| => if (s[i] as int) < 128 then s[i] as int else 0)
  }

  datatype Json = Null | Bool(value: bool) | Num(number: int) | Str(text: Text) | List(items: seq<Json>) | Obj(fields: map<Text, Json>)

  /** Parsing and printing are foreign. */
  datatype Codec = Codec(parse: Text -> Option<Json>, render: Json -> Text)

  function Get(value: Json, name: string): Option<Json> {
    if value.Obj? && Ascii(name) in value.fields then Some(value.fields[Ascii(name)]) else None
  }

  function TextOf(value: Option<Json>): Option<Text> {
    if value.Some? && value.value.Str? then Some(value.value.text) else None
  }

  // ----- Keys ----------------------------------------------------------------

  datatype Key = InitClash | SetState | SetupConfig | UpdateConfig | ChangeProxy(group: Text) | Listener | Log

  function ProxyKey(codec: Codec, data: Json): Option<Key> {
    var parsed := if data.Str? then codec.parse(data.text) else Some(data);
    if parsed.None? then None
    else
      var named := if Get(parsed.value, "group-name").Some? then Get(parsed.value, "group-name") else Get(parsed.value, "groupName");
      var group := TextOf(named);
      if group.None? || group.value == [] || |group.value| > MAX_GROUP_BYTES then None else Some(ChangeProxy(group.value))
  }

  function ReplayKey(codec: Codec, value: Json): Option<Key> {
    var data, name := Get(value, "data"), TextOf(Get(value, "method"));
    if TextOf(Get(value, "id")).None? || data.None? || name.None? then None
    else if name.value == Ascii("initClash") then Some(InitClash)
    else if name.value == Ascii("setState") then Some(SetState)
    else if name.value == Ascii("setupConfig") then Some(SetupConfig)
    else if name.value == Ascii("updateConfig") then Some(UpdateConfig)
    else if name.value == Ascii("startListener") || name.value == Ascii("stopListener") then Some(Listener)
    else if name.value == Ascii("startLog") || name.value == Ascii("stopLog") then Some(Log)
    else if name.value == Ascii("changeProxy") then ProxyKey(codec, data.value)
    else None
  }

  function LineKey(codec: Codec, line: Text): Option<Key> {
    var value := codec.parse(line);
    if value.None? then None else ReplayKey(codec, value.value)
  }

  /** The identifier under which a mutating request waits for its response. */
  function StageId(codec: Codec, line: Text): Option<Text> {
    if LineKey(codec, line).None? then None else TextOf(Get(codec.parse(line).value, "id"))
  }

  /** Whether the Core's response confirms the action. */
  predicate Accepted(action: Json, response: Json) {
    var name, data := TextOf(Get(action, "method")), Get(response, "data");
    && Get(response, "code") == Some(Num(0)) && Get(response, "method") == Get(action, "method")
    && (if name == Some(Ascii("setupConfig")) || name == Some(Ascii("updateConfig"))
        then data == Some(Str([])) || data == Some(Bool(true))
        else if name == Some(Ascii("startListener")) || name == Some(Ascii("stopListener")) then data == Some(Bool(true))
        else true)
  }

  // ----- The journal ---------------------------------------------------------

  datatype Journal = Journal(entries: map<Key, Text>, proxyOrder: seq<Key>, pending: map<Text, Text>, pendingOrder: seq<Text>)

  const EMPTY: Journal := Journal(map[], [], map[], [])

  function Without<T(==)>(s: seq<T>, x: T): (r: seq<T>)
    ensures |r| <= |s|
  {
    if s == [] then [] else if s[0] == x then s[1..] else [s[0]] + Without(s[1..], x)
  }

  function Trim(entries: map<Key, Text>, order: seq<Key>): (map<Key, Text>, seq<Key>)
    decreases |order|
  {
    if |entries| > MAX_REPLAY_ENTRIES && order != [] then Trim(entries - {order[0]}, order[1..]) else (entries, order)
  }

  function Store(j: Journal, key: Key, line: Text): Journal {
    var order := if key.ChangeProxy? then Without(j.proxyOrder, key) + [key] else j.proxyOrder;
    var trimmed := Trim(j.entries[key := line], order);
    j.(entries := trimmed.0, proxyOrder := trimmed.1)
  }

  function Record(codec: Codec, j: Journal, line: Text): Journal {
    var key := LineKey(codec, line);
    if key.None? then j else Store(j, key.value, line)
  }

  function TrimPending(pending: map<Text, Text>, order: seq<Text>): (map<Text, Text>, seq<Text>)
    decreases |order|
  {
    if |pending| > MAX_REPLAY_ENTRIES && order != [] then TrimPending(pending - {order[0]}, order[1..]) else (pending, order)
  }

  function Stage(codec: Codec, j: Journal, line: Text): Journal {
    var id := StageId(codec, line);
    if id.None? then j
    else
      var trimmed := TrimPending(j.pending[id.value := line], Without(j.pendingOrder, id.value) + [id.value]);
      j.(pending := trimmed.0, pendingOrder := trimmed.1)
  }

  /** The staged line a response answers, if any. */
  function Answered(codec: Codec, j: Journal, response: Text): Option<Text> {
    var value := codec.parse(response);
    if value.None? then None
    else
      var id := TextOf(Get(value.value, "id"));
      if id.Some? && id.value in j.pending then Some(id.value) else None
  }

  function Commit(codec: Codec, j: Journal, response: Text): Journal {
    var id := Answered(codec, j, response);
    if id.None? then j
    else
      var taken := j.(pending := j.pending - {id.value}, pendingOrder := Without(j.pendingOrder, id.value));
      if Confirmed(codec, j, response).None? then taken else Record(codec, taken, Confirmed(codec, j, response).value)
  }

  /** The staged line a response confirms. */
  function Confirmed(codec: Codec, j: Journal, response: Text): Option<Text> {
    var id := Answered(codec, j, response);
    if id.None? then None
    else
      var action := codec.parse(j.pending[id.value]);
      if action.Some? && Accepted(action.value, codec.parse(response).value) then Some(j.pending[id.value]) else None
  }

  function Discard(j: Journal): Journal {
    j.(pending := map[], pendingOrder := [])
  }

  // ----- What it stands for: the history of accepted lines -------------------

  type History = seq<(Key, Text)>

  function Latest(h: History): map<Key, Text> {
    if h == [] then map[] else Latest(h[..|h| - 1])[h[|h| - 1].0 := h[|h| - 1].1]
  }

  /** The proxy groups ever recorded, the least recent first. */
  function Recent(h: History): seq<Key> {
    if h == [] then []
    else
      var key, before := h[|h| - 1].0, Recent(h[..|h| - 1]);
      if key.ChangeProxy? then Without(before, key) + [key] else before
  }

  function Fixed(h: History): set<Key> {
    set k | k in Latest(h) && !k.ChangeProxy?
  }

  const FIXED_KEYS: set<Key> := {InitClash, SetState, SetupConfig, UpdateConfig, Listener, Log}

  predicate Distinct<T(==)>(s: seq<T>) {
    forall i, j :: 0 <= i < j < |s| ==> s[i] != s[j]
  }

  predicate Suffix<T(==)>(s: seq<T>, whole: seq<T>) {
    |s| <= |whole| && s == whole[|whole| - |s|..]
  }

  /** The latest line of every fixed key and of the groups in `order`. */
  function Restricted(h: History, order: seq<Key>): map<Key, Text> {
    map k | k in Latest(h) && (!k.ChangeProxy? || k in order) :: Latest(h)[k]
  }

  /** Only the least recent groups are missing, and only because the rest filled up. */
  predicate Covers(entries: map<Key, Text>, order: seq<Key>, h: History) {
    && Suffix(order, Recent(h)) && entries == Restricted(h, order)
    && (|order| == |Recent(h)| || |Fixed(h)| + |order| >= MAX_REPLAY_ENTRIES)
  }

  predicate Refines(j: Journal, h: History) {
    Covers(j.entries, j.proxyOrder, h) && |j.entries| <= MAX_REPLAY_ENTRIES
  }

  /** The order lists exactly the waiting identifiers, each once. */
  ghost predicate Listed(pending: map<Text, Text>, order: seq<Text>) {
    Distinct(order) && forall id :: id in order <==> id in pending
  }

  ghost predicate PendingOk(j: Journal) {
    Listed(j.pending, j.pendingOrder) && |j.pending| <= MAX_REPLAY_ENTRIES
  }

  // ----- Sequences without repeats -------------------------------------------

  function Members<T(==)>(s: seq<T>): set<T> {
    set x | x in s
  }

  lemma ConsDistinct<T>(x: T, s: seq<T>)
    ensures Distinct([x] + s) <==> x !in s && Distinct(s)
    ensures forall y :: y in [x] + s <==> y == x || y in s
  {
    var all := [x] + s;
    assert all[1..] == s;
    if Distinct(all) {
      forall i | 0 <= i < |s| ensures x != s[i] {
        assert all[0] != all[i + 1];
      }
      forall i, j | 0 <= i < j < |s| ensures s[i] != s[j] {
        assert all[i + 1] != all[j + 1];
      }
    }
  }

  lemma SnocDistinct<T>(s: seq<T>, x: T)
    requires Distinct(s) && x !in s
    ensures Distinct(s + [x]) && forall y :: y in s + [x] <==> y == x || y in s
  {
  }

  lemma {:induction false} WithoutMembers<T>(s: seq<T>, x: T)
    requires Distinct(s)
    ensures Distinct(Without(s, x))
    ensures forall y :: y in Without(s, x) <==> y in s && y != x
    ensures x !in s ==> Without(s, x) == s
    ensures |Without(s, x)| == |s| - (if x in s then 1 else 0)
    decreases |s|
  {
    if s != [] {
      assert s == [s[0]] + s[1..];
      ConsDistinct(s[0], s[1..]);
      WithoutMembers(s[1..], x);
      if s[0] != x {
        ConsDistinct(s[0], Without(s[1..], x));
      }
    }
  }

  lemma WithoutCons<T>(first: T, s: seq<T>, x: T)
    ensures Without([first] + s, x) == (if first == x then s else [first] + Without(s, x))
  {
    assert ([first] + s)[1..] == s;
  }

  lemma {:induction false} WithoutOfJoin<T>(a: seq<T>, b: seq<T>, x: T)
    ensures Without(a + b, x) == (if x in a then Without(a, x) + b else a + Without(b, x))
    decreases |a|
  {
    if a == [] {
      assert a + b == b;
    } else {
      assert a == [a[0]] + a[1..];
      assert a + b == [a[0]] + (a[1..] + b);
      WithoutCons(a[0], a[1..] + b, x);
      WithoutCons(a[0], a[1..], x);
      if a[0] != x {
        WithoutOfJoin(a[1..], b, x);
        FrontStays(a[0], if x in a[1..] then Without(a[1..], x) else a[1..], if x in a[1..] then b else Without(b, x));
      }
    }
  }

  lemma FrontStays<T>(first: T, s: seq<T>, t: seq<T>)
    ensures [first] + (s + t) == ([first] + s) + t
  {
  }

  lemma {:induction false} DistinctSize<T>(s: seq<T>)
    requires Distinct(s)
    ensures |Members(s)| == |s|
    decreases |s|
  {
    if s != [] {
      assert s == [s[0]] + s[1..];
      ConsDistinct(s[0], s[1..]);
      DistinctSize(s[1..]);
      assert Members(s) == {s[0]} + Members(s[1..]);
    }
  }

  // ----- Facts about histories -----------------------------------------------

  lemma {:induction false} RecentGroups(h: History)
    ensures Distinct(Recent(h))
    ensures forall k :: k in Recent(h) <==> k in Latest(h) && k.ChangeProxy?
    decreases |h|
  {
    if h != [] {
      var before := h[..|h| - 1];
      RecentGroups(before);
      WithoutMembers(Recent(before), h[|h| - 1].0);
      SnocDistinct(Without(Recent(before), h[|h| - 1].0), h[|h| - 1].0);
    }
  }

  lemma FewFixed(h: History)
    ensures Fixed(h) <= FIXED_KEYS && |Fixed(h)| <= 6
  {
    SubsetSize(Fixed(h), FIXED_KEYS);
  }

  lemma RestrictedSize(h: History, order: seq<Key>)
    requires Suffix(order, Recent(h))
    ensures Distinct(order) && |Restricted(h, order)| == |Fixed(h)| + |order|
    ensures forall k :: k in order ==> k.ChangeProxy? && k in Latest(h)
  {
    RecentGroups(h);
    OrderIsGroups(h, order);
    DistinctSize(order);
    RestrictedKeys(h, order);
    assert Fixed(h) !! Members(order);
    assert |Restricted(h, order)| == |Restricted(h, order).Keys|;
  }

  lemma OrderIsGroups(h: History, order: seq<Key>)
    requires Suffix(order, Recent(h)) && Distinct(Recent(h))
    requires forall k :: k in Recent(h) <==> k in Latest(h) && k.ChangeProxy?
    ensures Distinct(order) && forall k :: k in order ==> k.ChangeProxy? && k in Latest(h)
  {
    SuffixIsDistinct(order, Recent(h));
    forall k | k in order ensures k in Recent(h) {
      var i :| 0 <= i < |order| && order[i] == k;
      assert Recent(h)[|Recent(h)| - |order| + i] == k;
    }
  }

  lemma RestrictedKeys(h: History, order: seq<Key>)
    requires forall k :: k in order ==> k.ChangeProxy? && k in Latest(h)
    ensures Restricted(h, order).Keys == Fixed(h) + Members(order)
  {
  }

  lemma {:induction false} TrimRefines(entries: map<Key, Text>, order: seq<Key>, h: History)
    requires Covers(entries, order, h)
    ensures
      var trimmed := Trim(entries, order);
      Covers(trimmed.0, trimmed.1, h) && |trimmed.0| <= MAX_REPLAY_ENTRIES
    decreases |order|
  {
    RestrictedSize(h, order);
    FewFixed(h);
    if |entries| > MAX_REPLAY_ENTRIES {
      assert order == [order[0]] + order[1..];
      DroppedFirst(h, order);
      TrimRefines(entries - {order[0]}, order[1..], h);
    }
  }

  lemma DroppedFirst(h: History, order: seq<Key>)
    requires order != [] && Suffix(order, Recent(h))
    ensures Suffix(order[1..], Recent(h))
    ensures Restricted(h, order) - {order[0]} == Restricted(h, order[1..])
  {
    RestrictedSize(h, order);
    assert order == [order[0]] + order[1..];
    assert order[0] !in order[1..];
  }

  // ----- One record ----------------------------------------------------------

  lemma LatestStep(h: History, key: Key, line: Text)
    ensures Latest(h + [(key, line)]) == Latest(h)[key := line]
    ensures Recent(h + [(key, line)]) == (if key.ChangeProxy? then Without(Recent(h), key) + [key] else Recent(h))
  {
    assert (h + [(key, line)])[..|h|] == h;
  }

  lemma FixedKeyCovers(entries: map<Key, Text>, order: seq<Key>, h: History, key: Key, line: Text)
    requires Covers(entries, order, h) && !key.ChangeProxy?
    ensures Covers(entries[key := line], order, h + [(key, line)])
  {
    LatestStep(h, key, line);
    MoreFixed(h, key, line);
    FixedRestricted(h, h + [(key, line)], order, key, line);
  }

  lemma MoreFixed(h: History, key: Key, line: Text)
    requires !key.ChangeProxy?
    ensures |Fixed(h + [(key, line)])| >= |Fixed(h)|
  {
    LatestStep(h, key, line);
    assert Fixed(h + [(key, line)]) == Fixed(h) + {key};
    SubsetSize(Fixed(h), Fixed(h) + {key});
  }

  lemma FixedRestricted(h: History, h': History, order: seq<Key>, key: Key, line: Text)
    requires Latest(h') == Latest(h)[key := line] && !key.ChangeProxy?
    ensures Restricted(h', order) == Restricted(h, order)[key := line]
  {
  }

  lemma SuffixIsDistinct<T>(s: seq<T>, whole: seq<T>)
    requires Distinct(whole) && Suffix(s, whole)
    ensures Distinct(s)
    ensures forall x :: x in s ==> x !in whole[..|whole| - |s|]
  {
    var n := |whole| - |s|;
    assert forall i :: 0 <= i < |s| ==> s[i] == whole[n + i];
    assert forall i :: 0 <= i < n ==> whole[..n][i] == whole[i];
  }

  lemma MovedBack(a: seq<Key>, order: seq<Key>, key: Key)
    requires Distinct(order) && (key in a ==> key !in order)
    ensures Suffix(Without(order, key) + [key], Without(a + order, key) + [key])
  {
    WithoutOfJoin(a, order, key);
    WithoutMembers(order, key);
    var front := if key in a then Without(a, key) else a;
    assert Without(a + order, key) + [key] == front + (Without(order, key) + [key]);
    JoinSuffix(front, Without(order, key) + [key]);
  }

  /** Moving a group to the back keeps a suffix a suffix, or makes it one longer. */
  lemma MovedSuffix(r: seq<Key>, order: seq<Key>, key: Key)
    requires Distinct(r) && Suffix(order, r)
    ensures Suffix(Without(order, key) + [key], Without(r, key) + [key])
  {
    var a := r[..|r| - |order|];
    assert r == a + order;
    assert Distinct(order) && (key in order ==> key !in a) by {
      SuffixIsDistinct(order, r);
    }
    MovedBack(a, order, key);
  }

  lemma JoinSuffix<T>(a: seq<T>, b: seq<T>)
    ensures Suffix(b, a + b)
  {
  }

  lemma GroupCovers(entries: map<Key, Text>, order: seq<Key>, h: History, key: Key, line: Text)
    requires Covers(entries, order, h) && key.ChangeProxy?
    ensures Covers(entries[key := line], Without(order, key) + [key], h + [(key, line)])
  {
    var h', order' := h + [(key, line)], Without(order, key) + [key];
    LatestStep(h, key, line);
    RecentGroups(h);
    MovedSuffix(Recent(h), order, key);
    SuffixIsDistinct(order, Recent(h));
    WithoutMembers(order, key);
    assert |order| == |Recent(h)| ==> order == Recent(h);
    SameFixed(h, key, line);
    GroupRestricted(h, h', order, order', key, line);
  }

  lemma SameFixed(h: History, key: Key, line: Text)
    requires key.ChangeProxy?
    ensures Fixed(h + [(key, line)]) == Fixed(h)
  {
    LatestStep(h, key, line);
  }

  lemma GroupRestricted(h: History, h': History, order: seq<Key>, order': seq<Key>, key: Key, line: Text)
    requires Latest(h') == Latest(h)[key := line] && key.ChangeProxy?
    requires forall k :: k in order' <==> k == key || k in order
    ensures Restricted(h', order') == Restricted(h, order)[key := line]
  {
  }

  lemma StoreRefines(j: Journal, h: History, key: Key, line: Text)
    requires Refines(j, h)
    ensures Refines(Store(j, key, line), h + [(key, line)])
  {
    if key.ChangeProxy? {
      GroupCovers(j.entries, j.proxyOrder, h, key, line);
      TrimRefines(j.entries[key := line], Without(j.proxyOrder, key) + [key], h + [(key, line)]);
    } else {
      FixedKeyCovers(j.entries, j.proxyOrder, h, key, line);
      TrimRefines(j.entries[key := line], j.proxyOrder, h + [(key, line)]);
    }
  }

  lemma ListedSize(pending: map<Text, Text>, order: seq<Text>)
    requires Listed(pending, order)
    ensures |pending| == |order|
  {
    DistinctSize(order);
    assert Members(order) == pending.Keys;
    assert |pending| == |pending.Keys|;
  }

  lemma {:induction false} TrimPendingOk(pending: map<Text, Text>, order: seq<Text>)
    requires Listed(pending, order)
    ensures
      var trimmed := TrimPending(pending, order);
      && Listed(trimmed.0, trimmed.1) && |trimmed.0| <= MAX_REPLAY_ENTRIES
      && trimmed.0.Keys <= pending.Keys && forall id :: id in trimmed.0 ==> trimmed.0[id] == pending[id]
    decreases |order|
  {
    ListedSize(pending, order);
    if |pending| > MAX_REPLAY_ENTRIES {
      assert order == [order[0]] + order[1..];
      ConsDistinct(order[0], order[1..]);
      TrimPendingOk(pending - {order[0]}, order[1..]);
    }
  }

  // ----- Whole runs ----------------------------------------------------------

  datatype Command = StageLine(line: Text) | CommitResponse(line: Text) | DiscardPending | RecordLine(line: Text)

  function Apply(codec: Codec, j: Journal, c: Command): Journal {
    match c
    case StageLine(line) => Stage(codec, j, line)
    case CommitResponse(line) => Commit(codec, j, line)
    case DiscardPending => Discard(j)
    case RecordLine(line) => Record(codec, j, line)
  }

  /** The line a command accepts into the journal, with its key. */
  function Accepts(codec: Codec, j: Journal, c: Command): History {
    var line := match c
      case CommitResponse(response) => Confirmed(codec, j, response)
      case RecordLine(line) => Some(line)
      case _ => None;
    if line.None? || LineKey(codec, line.value).None? then [] else [(LineKey(codec, line.value).value, line.value)]
  }

  function After(codec: Codec, j: Journal, run: seq<Command>): Journal
    decreases |run|
  {
    if run == [] then j else After(codec, Apply(codec, j, run[0]), run[1..])
  }

  function AcceptedLines(codec: Codec, j: Journal, run: seq<Command>): History
    decreases |run|
  {
    if run == [] then [] else Accepts(codec, j, run[0]) + AcceptedLines(codec, Apply(codec, j, run[0]), run[1..])
  }

  lemma StepRefines(codec: Codec, j: Journal, h: History, c: Command)
    requires Refines(j, h)
    ensures Refines(Apply(codec, j, c), h + Accepts(codec, j, c))
  {
    var accepted := Accepts(codec, j, c);
    if accepted == [] {
      assert h + accepted == h;
    } else {
      StoreRefines(j, h, accepted[0].0, accepted[0].1);
    }
  }

  lemma StageKeepsPending(codec: Codec, j: Journal, line: Text)
    requires PendingOk(j)
    ensures PendingOk(Stage(codec, j, line))
  {
    if StageId(codec, line).Some? {
      var id := StageId(codec, line).value;
      WithoutMembers(j.pendingOrder, id);
      SnocDistinct(Without(j.pendingOrder, id), id);
      TrimPendingOk(j.pending[id := line], Without(j.pendingOrder, id) + [id]);
    }
  }

  lemma CommitPending(codec: Codec, j: Journal, response: Text)
    requires Answered(codec, j, response).Some?
    ensures
      var id := Answered(codec, j, response).value;
      && Commit(codec, j, response).pending == j.pending - {id}
      && Commit(codec, j, response).pendingOrder == Without(j.pendingOrder, id)
  {
  }

  lemma TakenIsListed(pending: map<Text, Text>, order: seq<Text>, id: Text)
    requires Listed(pending, order)
    ensures Listed(pending - {id}, Without(order, id)) && |pending - {id}| <= |pending|
  {
    WithoutMembers(order, id);
    ListedSize(pending, order);
    ListedSize(pending - {id}, Without(order, id));
  }

  lemma CommitKeepsPending(codec: Codec, j: Journal, response: Text)
    requires PendingOk(j)
    ensures PendingOk(Commit(codec, j, response))
  {
    if Answered(codec, j, response).Some? {
      CommitPending(codec, j, response);
      TakenIsListed(j.pending, j.pendingOrder, Answered(codec, j, response).value);
    }
  }

  lemma StepKeepsPending(codec: Codec, j: Journal, c: Command)
    requires PendingOk(j)
    ensures PendingOk(Apply(codec, j, c))
  {
    match c
    case StageLine(line) => StageKeepsPending(codec, j, line);
    case CommitResponse(response) => CommitKeepsPending(codec, j, response);
    case _ =>
  }

  lemma AcceptedJoin(codec: Codec, j: Journal, h: History, run: seq<Command>)
    requires run != []
    ensures h + AcceptedLines(codec, j, run) ==
            h + Accepts(codec, j, run[0]) + AcceptedLines(codec, Apply(codec, j, run[0]), run[1..])
  {
    var first, rest := Accepts(codec, j, run[0]), AcceptedLines(codec, Apply(codec, j, run[0]), run[1..]);
    assert h + (first + rest) == h + first + rest;
  }

  lemma {:induction false} RunRefines(codec: Codec, j: Journal, h: History, run: seq<Command>)
    requires Refines(j, h)
    ensures Refines(After(codec, j, run), h + AcceptedLines(codec, j, run))
    decreases |run|
  {
    if run == [] {
      assert h + AcceptedLines(codec, j, run) == h;
    } else {
      StepRefines(codec, j, h, run[0]);
      RunRefines(codec, Apply(codec, j, run[0]), h + Accepts(codec, j, run[0]), run[1..]);
      AcceptedJoin(codec, j, h, run);
    }
  }

  lemma {:induction false} RunKeepsPending(codec: Codec, j: Journal, run: seq<Command>)
    requires PendingOk(j)
    ensures PendingOk(After(codec, j, run))
    decreases |run|
  {
    if run != [] {
      StepKeepsPending(codec, j, run[0]);
      RunKeepsPending(codec, Apply(codec, j, run[0]), run[1..]);
    }
  }

  /** Over any run the journal holds, of the accepted lines, the latest per key, less
      only the least recently recorded groups and only when 128 others fill it. */
  lemma JournalIsTheHistory(codec: Codec, run: seq<Command>)
    ensures
      var j := After(codec, EMPTY, run);
      var h := AcceptedLines(codec, EMPTY, run);
      && (forall k :: k in j.entries ==> k in Latest(h) && j.entries[k] == Latest(h)[k])
      && (forall k :: k in Latest(h) && !k.ChangeProxy? ==> k in j.entries)
      && (forall k: Key :: k.ChangeProxy? ==> (k in j.entries <==> k in j.proxyOrder))
      && Distinct(j.proxyOrder) && Suffix(j.proxyOrder, Recent(h))
      && |j.entries| == (if |Latest(h)| <= MAX_REPLAY_ENTRIES then |Latest(h)| else MAX_REPLAY_ENTRIES)
      && |Fixed(h)| <= 6
      && PendingOk(j)
  {
    assert Refines(EMPTY, []);
    RunRefines(codec, EMPTY, [], run);
    RunKeepsPending(codec, EMPTY, run);
    var j, h := After(codec, EMPTY, run), AcceptedLines(codec, EMPTY, run);
    assert [] + h == h;
    RefinesMeans(j, h);
    FewFixed(h);
  }

  lemma RefinesMeans(j: Journal, h: History)
    requires Refines(j, h)
    ensures forall k :: k in j.entries ==> k in Latest(h) && j.entries[k] == Latest(h)[k]
    ensures forall k :: k in Latest(h) && !k.ChangeProxy? ==> k in j.entries
    ensures forall k: Key :: k.ChangeProxy? ==> (k in j.entries <==> k in j.proxyOrder)
    ensures Distinct(j.proxyOrder) && Suffix(j.proxyOrder, Recent(h))
    ensures |j.entries| == (if |Latest(h)| <= MAX_REPLAY_ENTRIES then |Latest(h)| else MAX_REPLAY_ENTRIES)
  {
    RestrictedSize(h, j.proxyOrder);
    LatestSize(h);
  }

  lemma LatestSize(h: History)
    ensures |Latest(h)| == |Fixed(h)| + |Recent(h)|
  {
    RecentGroups(h);
    RestrictedSize(h, Recent(h));
    assert Restricted(h, Recent(h)) == Latest(h);
  }

  // ----- Replaying -----------------------------------------------------------

  /** Every retained line parses to an action of its own key. */
  predicate KeysMatch(codec: Codec, entries: map<Key, Text>) {
    forall k :: k in entries ==> LineKey(codec, entries[k]) == Some(k)
  }

  lemma {:induction false} TrimKeepsKeys(codec: Codec, entries: map<Key, Text>, order: seq<Key>)
    requires KeysMatch(codec, entries)
    ensures KeysMatch(codec, Trim(entries, order).0)
    decreases |order|
  {
    if |entries| > MAX_REPLAY_ENTRIES && order != [] {
      TrimKeepsKeys(codec, entries - {order[0]}, order[1..]);
    }
  }

  lemma RecordKeepsKeys(codec: Codec, j: Journal, line: Text)
    requires KeysMatch(codec, j.entries)
    ensures KeysMatch(codec, Record(codec, j, line).entries)
  {
    var key := LineKey(codec, line);
    if key.Some? {
      var order := if key.value.ChangeProxy? then Without(j.proxyOrder, key.value) + [key.value] else j.proxyOrder;
      TrimKeepsKeys(codec, j.entries[key.value := line], order);
    }
  }

  lemma {:induction false} RunKeepsKeys(codec: Codec, j: Journal, run: seq<Command>)
    requires KeysMatch(codec, j.entries)
    ensures KeysMatch(codec, After(codec, j, run).entries)
    decreases |run|
  {
    if run != [] {
      match run[0] {
        case RecordLine(line) => RecordKeepsKeys(codec, j, line);
        case CommitResponse(response) =>
          if Confirmed(codec, j, response).Some? {
            var id := Answered(codec, j, response).value;
            RecordKeepsKeys(codec, j.(pending := j.pending - {id}, pendingOrder := Without(j.pendingOrder, id)), j.pending[id]);
          }
        case _ =>
      }
      RunKeepsKeys(codec, Apply(codec, j, run[0]), run[1..]);
    }
  }

  function Rank(key: Key): Byte {
    match key
    case InitClash => 0
    case SetState => 1
    case SetupConfig => 2
    case UpdateConfig => 3
    case ChangeProxy(_) => 4
    case Listener => 5
    case Log => 6
  }

  /** Rank first, then the key itself; only groups share a rank. */
  function Ranked(key: Key): Text {
    [Rank(key)] + if key.ChangeProxy? then key.group else []
  }

  lemma RankedIsOneToOne(a: Key, b: Key)
    requires Ranked(a) == Ranked(b)
    ensures a == b
  {
    assert Ranked(a)[0] == Ranked(b)[0];
    assert Ranked(a)[1..] == Ranked(b)[1..];
    assert a.ChangeProxy? ==> Ranked(a)[1..] == a.group;
    assert b.ChangeProxy? ==> Ranked(b)[1..] == b.group;
  }

  function Ranks(keys: seq<Key>): (r: seq<Text>)
    ensures |r| == |keys|
  {
    seq(|keys|, i requires 0 <= i < |keys| => Ranked(keys[i]))
  }

  predicate InReplayOrder(keys: seq<Key>) {
    Ascending(Ranks(keys))
  }

  /** Where a sort puts one more key. */
  function Place(keys: seq<Key>, key: Key): seq<Key> {
    if keys == [] then [key]
    else if keys[0] == key then keys
    else if Below(Ranked(keys[0]), Ranked(key)) then [keys[0]] + Place(keys[1..], key)
    else [key] + keys
  }

  lemma {:induction false} PlaceRanks(keys: seq<Key>, key: Key)
    ensures Ranks(Place(keys, key)) == SetInsert(Ranks(keys), Ranked(key))
    ensures forall k :: k in Place(keys, key) <==> k in keys || k == key
    decreases |keys|
  {
    if keys != [] {
      assert Ranks(keys)[1..] == Ranks(keys[1..]);
      assert keys == [keys[0]] + keys[1..];
      PlaceRanks(keys[1..], key);
      if Ranked(keys[0]) == Ranked(key) {
        RankedIsOneToOne(keys[0], key);
      }
    }
  }

  lemma PlaceKeepsOrder(keys: seq<Key>, key: Key)
    requires InReplayOrder(keys)
    ensures InReplayOrder(Place(keys, key))
    ensures forall k :: k in Place(keys, key) <==> k in keys || k == key
  {
    PlaceRanks(keys, key);
    SetInsertAscends(Ranks(keys), Ranked(key));
  }

  /** There is only one replay order of the same keys. */
  lemma ReplayOrderIsUnique(a: seq<Key>, b: seq<Key>)
    requires InReplayOrder(a) && InReplayOrder(b) && forall k :: k in a <==> k in b
    ensures a == b
  {
    SameRanks(a, b);
    SameRanks(b, a);
    AscendingUnique(Ranks(a), Ranks(b));
    forall i | 0 <= i < |a| ensures a[i] == b[i] {
      assert Ranks(a)[i] == Ranks(b)[i];
      RankedIsOneToOne(a[i], b[i]);
    }
  }

  lemma SameRanks(a: seq<Key>, b: seq<Key>)
    requires forall k :: k in a ==> k in b
    ensures Elements(Ranks(a)) <= Elements(Ranks(b))
  {
    forall r | r in Elements(Ranks(a)) ensures r in Elements(Ranks(b)) {
      var i :| 0 <= i < |Ranks(a)| && Ranks(a)[i] == r;
      assert a[i] in b;
      var j :| 0 <= j < |b| && b[j] == a[i];
      assert Ranks(b)[j] == r;
    }
  }

  function Decimal(n: nat): Text {
    if n < 10 then [48 + n] else Decimal(n / 10) + [48 + n % 10]
  }

  lemma {:induction false} DecimalIsOneToOne(m: nat, n: nat)
    requires Decimal(m) == Decimal(n)
    ensures m == n
  {
    var a, b := Decimal(m), Decimal(n);
    assert a[|a| - 1] == 48 + m % 10 && b[|b| - 1] == 48 + n % 10;
    DecimalLength(m);
    DecimalLength(n);
    if m >= 10 && n >= 10 {
      assert a[..|a| - 1] == Decimal(m / 10) && b[..|b| - 1] == Decimal(n / 10);
      DecimalIsOneToOne(m / 10, n / 10);
    }
  }

  lemma DecimalLength(n: nat)
    ensures |Decimal(n)| >= 1 && (|Decimal(n)| == 1 <==> n < 10)
  {
  }

  const ID_PREFIX: Text := Ascii("_agent-replay-")

  function ReplayId(index: nat): Text {
    ID_PREFIX + Decimal(index)
  }

  lemma ReplayIdsDiffer(m: nat, n: nat)
    requires m != n
    ensures ReplayId(m) != ReplayId(n)
  {
    if ReplayId(m) == ReplayId(n) {
      assert Decimal(m) == ReplayId(m)[|ID_PREFIX|..];
      assert Decimal(n) == ReplayId(n)[|ID_PREFIX|..];
      DecimalIsOneToOne(m, n);
    }
  }

  /** The line replayed at a position: the retained action under a new identifier. */
  function Renumbered(codec: Codec, line: Text, index: nat): Text
    requires LineKey(codec, line).Some?
  {
    codec.render(Obj(codec.parse(line).value.fields[Ascii("id") := Str(ReplayId(index))]))
  }
}
