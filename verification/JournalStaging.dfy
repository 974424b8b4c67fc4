/** From a staged request to the journal: exactly what waits, and that an action is
    recorded exactly when its own response confirms it. */
module JournalStaging {
  import opened Wrappers
  import opened Bytes
  import opened ReplayJournal

  // ----- Waiting -------------------------------------------------------------

  lemma TrimsOne(pending: map<Text, Text>, order: seq<Text>)
    requires Listed(pending, order) && |pending| <= 129
    ensures TrimPending(pending, order) == if |pending| == 129 then (pending - {order[0]}, order[1..]) else (pending, order)
  {
    ListedSize(pending, order);
    if |pending| == 129 {
      var rest := pending - {order[0]};
      assert order == [order[0]] + order[1..];
      ConsDistinct(order[0], order[1..]);
      ListedSize(rest, order[1..]);
      assert TrimPending(rest, order[1..]) == (rest, order[1..]);
    }
  }

  /** One more waits, and everything else as before. */
  lemma OneMoreListed(pending: map<Text, Text>, order: seq<Text>, id: Text, line: Text)
    requires Listed(pending, order)
    ensures Listed(pending[id := line], Without(order, id) + [id])
    ensures |pending[id := line]| == |pending| + (if id in pending then 0 else 1)
    ensures id !in pending && order != [] ==> (Without(order, id) + [id])[0] == order[0]
  {
    WithoutMembers(order, id);
    SnocDistinct(Without(order, id), id);
    ListedSize(pending, order);
    ListedSize(pending[id := line], Without(order, id) + [id]);
  }

  /** All places are taken by others. */
  predicate Full(j: Journal, id: Text) {
    id !in j.pending && |j.pending| == 128
  }

  /** A staged line waits under its identifier in place of an older one; only when 128
      others wait already, the one that waited longest is dropped. */
  lemma StageExactly(codec: Codec, j: Journal, line: Text)
    requires PendingOk(j)
    ensures StageId(codec, line).None? ==> Stage(codec, j, line) == j
    ensures StageId(codec, line).Some? ==>
              var id := StageId(codec, line).value;
              var all, order := j.pending[id := line], Without(j.pendingOrder, id) + [id];
              && (Full(j, id) ==> j.pendingOrder != [] && Stage(codec, j, line) == j.(pending := all - {j.pendingOrder[0]}, pendingOrder := order[1..]))
              && (!Full(j, id) ==> Stage(codec, j, line) == j.(pending := all, pendingOrder := order))
  {
    if StageId(codec, line).Some? {
      var id := StageId(codec, line).value;
      ListedSize(j.pending, j.pendingOrder);
      OneMoreListed(j.pending, j.pendingOrder, id, line);
      TrimsOne(j.pending[id := line], Without(j.pendingOrder, id) + [id]);
    }
  }

  /** The identifier a response answers. */
  function Answers(codec: Codec, response: Text): Option<Text> {
    var value := codec.parse(response);
    if value.Some? then TextOf(Get(value.value, "id")) else None
  }

  /** Leaves what waits under this identifier alone, unless too much is staged after it. */
  predicate Spares(codec: Codec, c: Command, id: Text) {
    match c
    case StageLine(line) => StageId(codec, line) != Some(id)
    case CommitResponse(response) => Answers(codec, response) != Some(id)
    case DiscardPending => false
    case RecordLine(_) => true
  }

  /** The line waits under this identifier, at most `younger` others after it. */
  predicate Waiting(j: Journal, id: Text, line: Text, younger: nat) {
    id in j.pending && j.pending[id] == line && InQueue(j.pendingOrder, id, younger)
  }

  predicate InQueue(order: seq<Text>, id: Text, younger: nat) {
    exists p :: 0 <= p < |order| && order[p] == id && |order| - 1 - p <= younger
  }

  lemma QueueWithout(order: seq<Text>, id: Text, other: Text, younger: nat)
    requires InQueue(order, id, younger) && other != id
    ensures InQueue(Without(order, other), id, younger)
  {
    var p :| 0 <= p < |order| && order[p] == id && |order| - 1 - p <= younger;
    var before, after := order[..p], order[p + 1..];
    assert order == before + ([id] + after);
    WithoutOfJoin(before, [id] + after, other);
    WithoutCons(id, after, other);
    var front := if other in before then Without(before, other) else before;
    assert Without(order, other)[|front|] == id;
  }

  lemma QueueAppend(order: seq<Text>, id: Text, other: Text, younger: nat)
    requires InQueue(order, id, younger)
    ensures InQueue(order + [other], id, younger + 1)
  {
    var p :| 0 <= p < |order| && order[p] == id && |order| - 1 - p <= younger;
    assert (order + [other])[p] == id;
  }

  lemma QueueDrop(order: seq<Text>, id: Text, younger: nat)
    requires InQueue(order, id, younger) && younger + 1 < |order|
    ensures InQueue(order[1..], id, younger)
  {
    var p :| 0 <= p < |order| && order[p] == id && |order| - 1 - p <= younger;
    assert order[1..][p - 1] == id;
  }

  lemma QueueStays(order: seq<Text>, id: Text, other: Text, younger: nat)
    requires InQueue(order, id, younger) && other != id
    ensures InQueue(Without(order, other) + [other], id, younger + 1)
    ensures Distinct(order) && other !in order && younger + 1 < |order| ==>
              order[0] != id && InQueue((Without(order, other) + [other])[1..], id, younger + 1)
  {
    QueueWithout(order, id, other, younger);
    QueueAppend(Without(order, other), id, other, younger);
    if Distinct(order) && other !in order && younger + 1 < |order| {
      WithoutMembers(order, other);
      QueueDrop(order + [other], id, younger + 1);
      var p :| 0 <= p < |order| && order[p] == id && |order| - 1 - p <= younger;
    }
  }

  lemma StageKeepsWaiting(codec: Codec, j: Journal, staged: Text, id: Text, line: Text, younger: nat)
    requires PendingOk(j) && Waiting(j, id, line, younger) && StageId(codec, staged) != Some(id) && younger + 1 < 128
    ensures Waiting(Stage(codec, j, staged), id, line, younger + 1)
  {
    StageExactly(codec, j, staged);
    if StageId(codec, staged).Some? {
      ListedSize(j.pending, j.pendingOrder);
      QueueStays(j.pendingOrder, id, StageId(codec, staged).value, younger);
    }
  }

  function Staged(c: Command): nat {
    if c.StageLine? then 1 else 0
  }

  lemma StepKeepsWaiting(codec: Codec, j: Journal, c: Command, id: Text, line: Text, younger: nat)
    requires PendingOk(j) && Waiting(j, id, line, younger) && Spares(codec, c, id) && younger + Staged(c) < 128
    ensures Waiting(Apply(codec, j, c), id, line, younger + Staged(c))
  {
    match c
    case StageLine(staged) => StageKeepsWaiting(codec, j, staged, id, line, younger);
    case CommitResponse(response) =>
      if Answered(codec, j, response).Some? {
        CommitPending(codec, j, response);
        QueueWithout(j.pendingOrder, id, Answered(codec, j, response).value, younger);
      }
    case RecordLine(_) =>
  }

  function StagedIn(run: seq<Command>): nat {
    if run == [] then 0 else Staged(run[0]) + StagedIn(run[1..])
  }

  lemma {:induction false} RunKeepsWaiting(codec: Codec, j: Journal, run: seq<Command>, id: Text, line: Text, younger: nat)
    requires PendingOk(j) && Waiting(j, id, line, younger) && younger + StagedIn(run) < 128
    requires forall i :: 0 <= i < |run| ==> Spares(codec, run[i], id)
    ensures Waiting(After(codec, j, run), id, line, younger + StagedIn(run))
    decreases |run|
  {
    if run != [] {
      StepKeepsWaiting(codec, j, run[0], id, line, younger);
      StepKeepsPending(codec, j, run[0]);
      RunKeepsWaiting(codec, Apply(codec, j, run[0]), run[1..], id, line, younger + Staged(run[0]));
    }
  }

  lemma StagedWaits(codec: Codec, j: Journal, line: Text, id: Text)
    requires PendingOk(j) && StageId(codec, line) == Some(id)
    ensures Waiting(Stage(codec, j, line), id, line, 0)
  {
    StageExactly(codec, j, line);
    StageKeepsPending(codec, j, line);
    ListedSize(j.pending, j.pendingOrder);
    var order := Stage(codec, j, line).pendingOrder;
    assert order[|order| - 1] == id;
    if id !in j.pending && |j.pending| == 128 { assert j.pendingOrder[0] in j.pending; }
  }

  // ----- Confirming ----------------------------------------------------------

  /** What a response must say: success, the same method, and for a configuration an
      empty text or true, for the listener true. */
  predicate Confirms(action: Json, response: Json) {
    var name := TextOf(Get(action, "method"));
    var data := Get(response, "data");
    && Get(response, "code") == Some(Num(0)) && Get(response, "method") == Get(action, "method")
    && (name in {Some(Ascii("setupConfig")), Some(Ascii("updateConfig"))} ==> data in {Some(Str([])), Some(Bool(true))})
    && (name in {Some(Ascii("startListener")), Some(Ascii("stopListener"))} ==> data == Some(Bool(true)))
  }

  lemma NamesDiffer()
    ensures Ascii("setupConfig") != Ascii("startListener") && Ascii("setupConfig") != Ascii("stopListener")
    ensures Ascii("updateConfig") != Ascii("startListener") && Ascii("updateConfig") != Ascii("stopListener")
  {
    assert Ascii("updateConfig")[0] != Ascii("stopListener")[0];
  }

  lemma ConfirmsExactly(action: Json, response: Json)
    ensures Accepted(action, response) <==> Confirms(action, response)
  {
    NamesDiffer();
  }

  lemma CommitRecords(codec: Codec, j: Journal, id: Text, line: Text, response: Text)
    requires id in j.pending && j.pending[id] == line && StageId(codec, line) == Some(id) && Answers(codec, response) == Some(id)
    ensures Commit(codec, j, response).pending == j.pending - {id}
    ensures Accepts(codec, j, CommitResponse(response)) ==
              if Confirms(codec.parse(line).value, codec.parse(response).value) then [(LineKey(codec, line).value, line)] else []
  {
    ConfirmsExactly(codec.parse(line).value, codec.parse(response).value);
    CommitPending(codec, j, response);
  }

  lemma StagedSurvives(codec: Codec, j: Journal, line: Text, id: Text, between: seq<Command>)
    requires PendingOk(j) && StageId(codec, line) == Some(id)
    requires StagedIn(between) < 128 && forall i :: 0 <= i < |between| ==> Spares(codec, between[i], id)
    ensures Waiting(After(codec, Stage(codec, j, line), between), id, line, StagedIn(between))
  {
    StagedWaits(codec, j, line, id);
    StageKeepsPending(codec, j, line);
    RunKeepsWaiting(codec, Stage(codec, j, line), between, id, line, 0);
  }

  /** A staged action whose response comes before 128 more are staged, and with nothing
      else under its identifier meanwhile, is recorded by that response exactly if the
      response confirms it. */
  lemma ConfirmedIsRecorded(codec: Codec, j: Journal, line: Text, id: Text, between: seq<Command>, waiting: Journal, response: Text)
    requires PendingOk(j) && StageId(codec, line) == Some(id) && Answers(codec, response) == Some(id)
    requires StagedIn(between) < 128 && forall i :: 0 <= i < |between| ==> Spares(codec, between[i], id)
    requires waiting == After(codec, Stage(codec, j, line), between)
    ensures id in waiting.pending && Commit(codec, waiting, response).pending == waiting.pending - {id}
    ensures Accepts(codec, waiting, CommitResponse(response)) ==
              if Confirms(codec.parse(line).value, codec.parse(response).value) then [(LineKey(codec, line).value, line)] else []
  {
    StagedSurvives(codec, j, line, id, between);
    CommitRecords(codec, waiting, id, line, response);
  }

  // ----- And nothing else ----------------------------------------------------

  /** The line was staged under this identifier, and nothing since has taken it away. */
  predicate WasStaged(codec: Codec, run: seq<Command>, id: Text, line: Text) {
    exists i :: 0 <= i < |run| && run[i] == StageLine(line) && StageId(codec, line) == Some(id)
                && forall k :: i < k < |run| ==> Spares(codec, run[k], id)
  }

  lemma {:induction false} OneMore(codec: Codec, j: Journal, run: seq<Command>, c: Command)
    ensures After(codec, j, run + [c]) == Apply(codec, After(codec, j, run), c)
    decreases |run|
  {
    if run == [] {
      assert (run + [c])[1..] == [];
    } else {
      OneMore(codec, Apply(codec, j, run[0]), run[1..], c);
      assert (run + [c])[1..] == run[1..] + [c];
    }
  }

  lemma StillStaged(codec: Codec, run: seq<Command>, c: Command, id: Text, line: Text)
    requires WasStaged(codec, run, id, line) && Spares(codec, c, id)
    ensures WasStaged(codec, run + [c], id, line)
  {
    var i :| 0 <= i < |run| && run[i] == StageLine(line) && StageId(codec, line) == Some(id)
             && forall k :: i < k < |run| ==> Spares(codec, run[k], id);
    assert (run + [c])[i] == StageLine(line);
  }

  lemma JustStaged(codec: Codec, run: seq<Command>, id: Text, line: Text)
    requires StageId(codec, line) == Some(id)
    ensures WasStaged(codec, run + [StageLine(line)], id, line)
  {
    assert (run + [StageLine(line)])[|run|] == StageLine(line);
  }

  /** What waits after a step waited before it, unless it is what the step stages. */
  lemma StepWaits(codec: Codec, j: Journal, c: Command, id: Text)
    requires PendingOk(j) && id in Apply(codec, j, c).pending
    ensures if c.StageLine? && StageId(codec, c.line) == Some(id) then Apply(codec, j, c).pending[id] == c.line
            else Spares(codec, c, id) && id in j.pending && Apply(codec, j, c).pending[id] == j.pending[id]
  {
    match c
    case StageLine(line) => StageExactly(codec, j, line);
    case CommitResponse(response) => if Answered(codec, j, response).Some? { CommitPending(codec, j, response); }
    case _ =>
  }

  lemma {:induction false} WaitingWasStaged(codec: Codec, run: seq<Command>)
    ensures PendingOk(After(codec, EMPTY, run))
    ensures forall id :: id in After(codec, EMPTY, run).pending ==> WasStaged(codec, run, id, After(codec, EMPTY, run).pending[id])
    decreases |run|
  {
    RunKeepsPending(codec, EMPTY, run);
    if run != [] {
      var n := |run| - 1;
      var j := After(codec, EMPTY, run[..n]);
      WaitingWasStaged(codec, run[..n]);
      OneMore(codec, EMPTY, run[..n], run[n]);
      assert run == run[..n] + [run[n]];
      forall id | id in After(codec, EMPTY, run).pending ensures WasStaged(codec, run, id, After(codec, EMPTY, run).pending[id]) {
        StepWaits(codec, j, run[n], id);
        if run[n].StageLine? && StageId(codec, run[n].line) == Some(id) { JustStaged(codec, run[..n], id, run[n].line); }
        else { StillStaged(codec, run[..n], run[n], id, j.pending[id]); }
      }
    }
  }

  /** After any run a response records nothing but a line that was staged under the
      identifier it answers, that nothing has answered, restaged or discarded since, and
      that it confirms. */
  lemma RecordedWasConfirmed(codec: Codec, run: seq<Command>, response: Text)
    requires Accepts(codec, After(codec, EMPTY, run), CommitResponse(response)) != []
    ensures var accepted := Accepts(codec, After(codec, EMPTY, run), CommitResponse(response));
            && |accepted| == 1 && LineKey(codec, accepted[0].1) == Some(accepted[0].0)
            && Answers(codec, response).Some? && WasStaged(codec, run, Answers(codec, response).value, accepted[0].1)
            && Confirms(codec.parse(accepted[0].1).value, codec.parse(response).value)
  {
    WaitingWasStaged(codec, run);
    var line := Accepts(codec, After(codec, EMPTY, run), CommitResponse(response))[0].1;
    ConfirmsExactly(codec.parse(line).value, codec.parse(response).value);
  }
}
