/** Which actions the journal keeps apart, in which order it replays them, and that
    storing and restoring its replay rebuilds it. */
module JournalReplays {
  import opened Wrappers
  import opened Bytes
  import opened Sets
  import opened TargetGroups
  import opened ReplayJournal

  // ----- Keys ----------------------------------------------------------------

  function MethodOf(codec: Codec, line: Text): Option<Text> {
    var value := codec.parse(line);
    if value.Some? then TextOf(Get(value.value, "method")) else None
  }

  /** The group of a proxy choice, whose data may be an object or its text. */
  function GroupOf(codec: Codec, line: Text): Option<Text> {
    var value := codec.parse(line);
    var data := if value.Some? then Get(value.value, "data") else None;
    var fields := if data.Some? && data.value.Str? then codec.parse(data.value.text) else data;
    if fields.None? then None
    else if Get(fields.value, "group-name").Some? then TextOf(Get(fields.value, "group-name"))
    else TextOf(Get(fields.value, "groupName"))
  }

  /** The methods that are replayed, by their place in the replay; starting and stopping
      the same thing share one. */
  predicate Plays(name: Option<Text>, place: nat) {
    match place
    case 0 => name == Some(Ascii("initClash"))
    case 1 => name == Some(Ascii("setState"))
    case 2 => name == Some(Ascii("setupConfig"))
    case 3 => name == Some(Ascii("updateConfig"))
    case 4 => name == Some(Ascii("changeProxy"))
    case 5 => name == Some(Ascii("startListener")) || name == Some(Ascii("stopListener"))
    case 6 => name == Some(Ascii("startLog")) || name == Some(Ascii("stopLog"))
    case _ => false
  }

  lemma MethodsDiffer()
    ensures Ascii("setupConfig") != Ascii("changeProxy") && Ascii("updateConfig") != Ascii("stopListener")
    ensures Ascii("setState") != Ascii("startLog")
  {
    assert Ascii("setupConfig")[0] != Ascii("changeProxy")[0];
    assert Ascii("updateConfig")[0] != Ascii("stopListener")[0];
    assert Ascii("setState")[1] != Ascii("startLog")[1];
  }

  lemma OnePlace(name: Option<Text>, a: nat, b: nat)
    requires Plays(name, a) && Plays(name, b)
    ensures a == b
  {
    MethodsDiffer();
  }

  /** A group is named if it has 1 to 512 bytes. */
  predicate NamesGroup(group: Option<Text>) {
    group.Some? && 1 <= |group.value| <= 512
  }

  lemma KeyOfValue(codec: Codec, line: Text)
    requires LineKey(codec, line).Some?
    ensures var key := LineKey(codec, line).value;
            Plays(MethodOf(codec, line), Rank(key)) && (key.ChangeProxy? ==> NamesGroup(GroupOf(codec, line)) && key.group == GroupOf(codec, line).value)
  {
  }

  /** A line is replayable exactly if it is an object with a textual identifier, some
      data and one of these methods, and if it is a proxy choice it names a group. */
  lemma ReplayableExactly(codec: Codec, line: Text)
    ensures LineKey(codec, line).Some? <==>
              && codec.parse(line).Some? && TextOf(Get(codec.parse(line).value, "id")).Some? && Get(codec.parse(line).value, "data").Some?
              && (exists place: nat :: Plays(MethodOf(codec, line), place))
              && (Plays(MethodOf(codec, line), 4) ==> NamesGroup(GroupOf(codec, line)))
  {
    MethodsDiffer();
    if LineKey(codec, line).Some? {
      KeyOfValue(codec, line);
      if Plays(MethodOf(codec, line), 4) { OnePlace(MethodOf(codec, line), 4, Rank(LineKey(codec, line).value)); }
    }
  }

  /** A later line replaces an earlier one exactly if their methods share a place and, for
      proxy choices, they name the same group. */
  lemma ReplacesExactly(codec: Codec, a: Text, b: Text, place: nat)
    requires LineKey(codec, a).Some? && LineKey(codec, b).Some? && Plays(MethodOf(codec, a), place)
    ensures LineKey(codec, a) == LineKey(codec, b) <==>
              Plays(MethodOf(codec, b), place) && (place == 4 ==> GroupOf(codec, a) == GroupOf(codec, b))
  {
    KeyOfValue(codec, a);
    KeyOfValue(codec, b);
    OnePlace(MethodOf(codec, a), place, Rank(LineKey(codec, a).value));
    if Plays(MethodOf(codec, b), place) { OnePlace(MethodOf(codec, b), place, Rank(LineKey(codec, b).value)); }
  }

  // ----- Order ---------------------------------------------------------------

  /** What is replayed earlier has the lower place; proxy choices follow their groups. */
  lemma ReplayFollowsPlaces(codec: Codec, keys: seq<Key>, lines: seq<Text>, i: nat, k: nat, first: nat, second: nat)
    requires InReplayOrder(keys) && |lines| == |keys| && i < k < |keys|
    requires LineKey(codec, lines[i]) == Some(keys[i]) && LineKey(codec, lines[k]) == Some(keys[k])
    requires Plays(MethodOf(codec, lines[i]), first) && Plays(MethodOf(codec, lines[k]), second)
    ensures first < second || (
              && first == second == 4 && GroupOf(codec, lines[i]).Some? && GroupOf(codec, lines[k]).Some?
              && Below(GroupOf(codec, lines[i]).value, GroupOf(codec, lines[k]).value))
  {
    KeyOfValue(codec, lines[i]);
    KeyOfValue(codec, lines[k]);
    OnePlace(MethodOf(codec, lines[i]), first, Rank(keys[i]));
    OnePlace(MethodOf(codec, lines[k]), second, Rank(keys[k]));
    assert Below(Ranks(keys)[i], Ranks(keys)[k]);
    RankedBelow(keys[i], keys[k]);
  }

  lemma RankedBelow(a: Key, b: Key)
    requires Below(Ranked(a), Ranked(b))
    ensures Rank(a) < Rank(b) || (a.ChangeProxy? && b.ChangeProxy? && Below(a.group, b.group))
  {
    if Rank(a) == Rank(b) {
      assert Ranked(a)[1..] == if a.ChangeProxy? then a.group else [];
      assert Ranked(b)[1..] == if b.ChangeProxy? then b.group else [];
    }
  }

  // ----- Replaying -----------------------------------------------------------

  /** An object that is printed reads back as itself. */
  ghost predicate Faithful(codec: Codec) {
    forall v: Json :: v.Obj? ==> codec.parse(codec.render(v)) == Some(v)
  }

  /** A replayed line is the retained action under its new identifier: the method, the data
      and every other field are the same, so it has the same key. */
  lemma ReplayKeepsAction(codec: Codec, line: Text, index: nat)
    requires Faithful(codec) && LineKey(codec, line).Some?
    ensures var replayed := codec.parse(Renumbered(codec, line, index));
            && replayed == Some(Obj(codec.parse(line).value.fields[Ascii("id") := Str(ReplayId(index))]))
            && LineKey(codec, Renumbered(codec, line, index)) == LineKey(codec, line)
    ensures Renumbered(codec, Renumbered(codec, line, index), index) == Renumbered(codec, line, index)
  {
    var fields := codec.parse(line).value.fields;
    var id := Str(ReplayId(index));
    assert fields[Ascii("id") := id][Ascii("id") := id] == fields[Ascii("id") := id];
    assert Ascii("id") != Ascii("method") && Ascii("id") != Ascii("data");
    SameAction(codec, codec.parse(line).value, Obj(fields[Ascii("id") := id]));
  }

  lemma SameAction(codec: Codec, a: Json, b: Json)
    requires ReplayKey(codec, a).Some? && TextOf(Get(b, "id")).Some? && Get(a, "method") == Get(b, "method") && Get(a, "data") == Get(b, "data")
    ensures ReplayKey(codec, b) == ReplayKey(codec, a)
  {
  }

  /** Recording lines one after the other, as a restored snapshot is. */
  function Records(lines: seq<Text>): seq<Command> {
    seq(|lines|, i requires 0 <= i < |lines| => RecordLine(lines[i]))
  }

  predicate PartOf(entries: map<Key, Text>, whole: map<Key, Text>) {
    forall k :: k in entries ==> k in whole && entries[k] == whole[k]
  }

  lemma RecordsRest(lines: seq<Text>)
    requires lines != []
    ensures Records(lines) != [] && Records(lines)[0] == RecordLine(lines[0]) && Records(lines)[1..] == Records(lines[1..])
  {
  }

  /** Every line has its key, and is what the map has under it. */
  predicate Filed(codec: Codec, whole: map<Key, Text>, keys: seq<Key>, lines: seq<Text>) {
    && |keys| == |lines|
    && forall i :: 0 <= i < |keys| ==> LineKey(codec, lines[i]) == Some(keys[i]) && keys[i] in whole && whole[keys[i]] == lines[i]
  }

  lemma FiledRest(codec: Codec, whole: map<Key, Text>, keys: seq<Key>, lines: seq<Text>)
    requires Filed(codec, whole, keys, lines) && keys != []
    ensures Filed(codec, whole, keys[1..], lines[1..])
    ensures LineKey(codec, lines[0]) == Some(keys[0]) && keys[0] in whole && whole[keys[0]] == lines[0]
    ensures forall k :: k in keys <==> k == keys[0] || k in keys[1..]
  {
    assert keys == [keys[0]] + keys[1..];
  }

  /** The lines of a map that fits, recorded one by one, stay a part of it and all get in. */
  lemma {:induction false} RecordedOneByOne(codec: Codec, j: Journal, whole: map<Key, Text>, keys: seq<Key>, lines: seq<Text>)
    requires Filed(codec, whole, keys, lines) && |whole| <= MAX_REPLAY_ENTRIES && PartOf(j.entries, whole)
    ensures PartOf(After(codec, j, Records(lines)).entries, whole)
    ensures forall k :: k in j.entries || k in keys ==> k in After(codec, j, Records(lines)).entries
    decreases |lines|
  {
    if lines != [] {
      RecordsRest(lines);
      FiledRest(codec, whole, keys, lines);
      RecordedNext(codec, j, whole, keys[0], lines[0]);
      RecordedOneByOne(codec, Apply(codec, j, RecordLine(lines[0])), whole, keys[1..], lines[1..]);
    }
  }

  lemma RecordedNext(codec: Codec, j: Journal, whole: map<Key, Text>, key: Key, line: Text)
    requires PartOf(j.entries, whole) && |whole| <= MAX_REPLAY_ENTRIES
    requires LineKey(codec, line) == Some(key) && key in whole && whole[key] == line
    ensures Apply(codec, j, RecordLine(line)).entries == j.entries[key := line] && PartOf(j.entries[key := line], whole)
  {
    var more := j.entries[key := line];
    SubsetSize(more.Keys, whole.Keys);
    assert |more| == |more.Keys| && |whole| == |whole.Keys|;
    StoredWhole(j, key, line);
  }

  lemma StoredWhole(j: Journal, key: Key, line: Text)
    requires |j.entries[key := line]| <= MAX_REPLAY_ENTRIES
    ensures Store(j, key, line).entries == j.entries[key := line]
  {
  }

  ghost function PlaceOf(keys: seq<Key>, key: Key): (i: nat)
    requires key in keys
    ensures i < |keys| && keys[i] == key
  {
    var i: nat :| i < |keys| && keys[i] == key;
    i
  }

  lemma OrderedDiffer(keys: seq<Key>, i: nat, k: nat)
    requires InReplayOrder(keys) && i < k < |keys|
    ensures keys[i] != keys[k]
  {
    BelowIrreflexive(Ranked(keys[i]));
    assert Below(Ranks(keys)[i], Ranks(keys)[k]);
  }

  lemma OnePlaceOf(keys: seq<Key>, i: nat)
    requires InReplayOrder(keys) && i < |keys|
    ensures PlaceOf(keys, keys[i]) == i
  {
    var k := PlaceOf(keys, keys[i]);
    if k < i { OrderedDiffer(keys, k, i); }
    if i < k { OrderedDiffer(keys, i, k); }
  }

  /** What is stored: for each key its replayed line. */
  ghost function Snapshot(keys: seq<Key>, lines: seq<Text>): (whole: map<Key, Text>)
    requires |keys| == |lines|
  {
    map k | k in keys :: lines[PlaceOf(keys, k)]
  }

  /** The lines of a replay, recorded into an empty journal, rebuild it: the same keys,
      each with the action it had; and that journal replays the very same lines. */
  lemma RestoredReplaysTheSame(codec: Codec, entries: map<Key, Text>, keys: seq<Key>, lines: seq<Text>)
    requires Faithful(codec) && KeysMatch(codec, entries) && |entries| <= MAX_REPLAY_ENTRIES
    requires InReplayOrder(keys) && (forall k :: k in keys <==> k in entries) && |lines| == |keys|
    requires forall i :: 0 <= i < |keys| ==> keys[i] in entries && lines[i] == Renumbered(codec, entries[keys[i]], i)
    ensures var restored := After(codec, EMPTY, Records(lines)).entries;
            && restored.Keys == entries.Keys && KeysMatch(codec, restored)
            && forall i :: 0 <= i < |keys| ==> restored[keys[i]] == lines[i] && Renumbered(codec, restored[keys[i]], i) == lines[i]
  {
    var whole := Snapshot(keys, lines);
    forall i | 0 <= i < |keys|
      ensures LineKey(codec, lines[i]) == Some(keys[i]) && Renumbered(codec, lines[i], i) == lines[i] && whole[keys[i]] == lines[i]
    {
      ReplayKeepsAction(codec, entries[keys[i]], i);
      OnePlaceOf(keys, i);
    }
    SameSize(whole, entries);
    RecordedOneByOne(codec, EMPTY, whole, keys, lines);
    AllRecorded(After(codec, EMPTY, Records(lines)).entries, whole, keys);
  }

  lemma SameSize(a: map<Key, Text>, b: map<Key, Text>)
    requires a.Keys == b.Keys
    ensures |a| == |b|
  {
    assert |a| == |a.Keys| && |b| == |b.Keys|;
  }

  lemma AllRecorded(entries: map<Key, Text>, whole: map<Key, Text>, keys: seq<Key>)
    requires PartOf(entries, whole) && (forall k :: k in whole ==> k in keys) && forall k :: k in keys ==> k in entries
    ensures entries == whole
  {
  }

  // ----- The listener --------------------------------------------------------

  /** What the journal says about the listener. */
  function ListenerRunning(codec: Codec, entries: map<Key, Text>): Option<bool> {
    if Listener !in entries then None
    else if MethodOf(codec, entries[Listener]) == Some(Ascii("startListener")) then Some(true)
    else if MethodOf(codec, entries[Listener]) == Some(Ascii("stopListener")) then Some(false)
    else None
  }

  /** Over any run the journal says what the latest accepted listener action said. */
  lemma ListenerIsTheLatest(codec: Codec, run: seq<Command>)
    ensures var h := AcceptedLines(codec, EMPTY, run);
            var says := ListenerRunning(codec, After(codec, EMPTY, run).entries);
            && (says.None? <==> Listener !in Latest(h))
            && (says.Some? ==> MethodOf(codec, Latest(h)[Listener]) == Some(Ascii(if says.value then "startListener" else "stopListener")))
  {
    JournalIsTheHistory(codec, run);
    RunKeepsKeys(codec, EMPTY, run);
    var entries := After(codec, EMPTY, run).entries;
    if Listener in entries {
      KeyOfValue(codec, entries[Listener]);
    }
  }
}
