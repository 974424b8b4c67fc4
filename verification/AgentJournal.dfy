/** The Agent's replay journal as it is kept: two maps and two queues changed in
    place, each operation proved equal to the one of module ReplayJournal. */
module AgentJournal {
  import opened Wrappers
  import opened Bytes
  import opened Spec = ReplayJournal

  method RemoveFirst<T(==)>(items: seq<T>, item: T) returns (rest: seq<T>)
    ensures rest == Without(items, item)
  {
    var position := 0;
    while position < |items| && items[position] != item
      invariant 0 <= position <= |items|
      invariant Without(items, item) == items[..position] + Without(items[position..], item)
    {
      position := position + 1;
    }
    if position == |items| {
      return items;
    }
    rest := items[..position] + items[position + 1..];
  }

  class ReplayJournal {
    const codec: Codec
    var entries: map<Key, Text>
    var proxyOrder: seq<Key>
    var pending: map<Text, Text>
    var pendingOrder: seq<Text>

    function State(): Journal
      reads this
    {
      Journal(entries, proxyOrder, pending, pendingOrder)
    }

    constructor (codec: Codec)
      ensures State() == EMPTY && this.codec == codec
    {
      this.codec := codec;
      entries, proxyOrder, pending, pendingOrder := map[], [], map[], [];
    }

    /** Drops the oldest of what waits too long, until the bound is met. */
    method StageLine(line: Text)
      requires PendingOk(State())
      modifies this
      ensures State() == Stage(codec, old(State()), line) && PendingOk(State())
    {
      StageKeepsPending(codec, State(), line);
      var id := StageId(codec, line);
      if id.None? {
        return;
      }
      pendingOrder := RemoveFirst(pendingOrder, id.value);
      pendingOrder := pendingOrder + [id.value];
      pending := pending[id.value := line];
      while |pending| > MAX_REPLAY_ENTRIES && pendingOrder != []
        invariant TrimPending(pending, pendingOrder) == TrimPending(old(pending)[id.value := line], Without(old(pendingOrder), id.value) + [id.value])
        invariant entries == old(entries) && proxyOrder == old(proxyOrder)
        decreases |pendingOrder|
      {
        pending, pendingOrder := pending - {pendingOrder[0]}, pendingOrder[1..];
      }
    }

    method CommitLine(response: Text)
      modifies this
      ensures State() == Commit(codec, old(State()), response)
    {
      var id := Answered(codec, State(), response);
      if id.None? {
        return;
      }
      var staged := pending[id.value];
      pending := pending - {id.value};
      pendingOrder := RemoveFirst(pendingOrder, id.value);
      var action := codec.parse(staged);
      if action.None? {
        return;
      }
      if Accepted(action.value, codec.parse(response).value) {
        RecordText(staged);
      }
    }

    method DiscardStaged()
      modifies this
      ensures State() == Discard(old(State()))
    {
      pending, pendingOrder := map[], [];
    }

    method RecordText(line: Text)
      modifies this
      ensures State() == Record(codec, old(State()), line)
    {
      var found := LineKey(codec, line);
      if found.None? {
        return;
      }
      var key := found.value;
      if key.ChangeProxy? {
        proxyOrder := RemoveFirst(proxyOrder, key);
        proxyOrder := proxyOrder + [key];
      }
      entries := entries[key := line];
      ghost var order := proxyOrder;
      while |entries| > MAX_REPLAY_ENTRIES && proxyOrder != []
        invariant Trim(entries, proxyOrder) == Trim(old(entries)[key := line], order)
        invariant pending == old(pending) && pendingOrder == old(pendingOrder)
        decreases |proxyOrder|
      {
        entries, proxyOrder := entries - {proxyOrder[0]}, proxyOrder[1..];
      }
    }

    /** The retained keys in replay order. */
    method ReplayKeys() returns (keys: seq<Key>)
      ensures InReplayOrder(keys) && forall k :: k in keys <==> k in entries
    {
      keys := [];
      var todo := entries.Keys;
      while todo != {}
        invariant todo <= entries.Keys && InReplayOrder(keys)
        invariant forall k :: k in keys <==> k in entries.Keys - todo
        decreases |todo|
      {
        var key :| key in todo;
        PlaceKeepsOrder(keys, key);
        keys := Place(keys, key);
        todo := todo - {key};
      }
    }

    /** Every retained entry once, in rank order, each under a new identifier. */
    method ReplayLines() returns (lines: seq<Text>, keys: seq<Key>)
      requires KeysMatch(codec, entries)
      ensures InReplayOrder(keys) && forall k :: k in keys <==> k in entries
      ensures |lines| == |keys|
      ensures forall i :: 0 <= i < |keys| ==> lines[i] == Renumbered(codec, entries[keys[i]], i)
    {
      keys := ReplayKeys();
      assert forall i :: 0 <= i < |keys| ==> keys[i] in entries;
      lines := [];
      for index := 0 to |keys|
        invariant |lines| == index
        invariant forall i :: 0 <= i < index ==> keys[i] in entries && lines[i] == Renumbered(codec, entries[keys[i]], i)
      {
        lines := lines + [Renumbered(codec, entries[keys[index]], index)];
      }
    }
  }
}
