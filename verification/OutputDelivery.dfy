/** What the output queue lets through: exactly when a message is dropped or closes the
    connection, and that one with room reaches the wire whole, after all before it. */
module OutputDelivery {
  import opened Wrappers
  import opened Words
  import opened Bytes
  import opened CoreOutput

  // ----- Every decision ------------------------------------------------------

  /** A send gets in exactly while the output is open; a stream message is dropped exactly
      when fewer than 33 places are left in the queue. */
  lemma EntryExactly(o: Output, i: nat, data: seq<Byte>, reliable: bool)
    ensures BeginSend(o, i, data, reliable) == if o.closed then o else o.(senders := o.senders[i := Entered(data, reliable)])
    ensures i in o.senders && o.senders[i] == Entered(data, reliable) ==>
              CheckRoom(o, i) == if !reliable && |o.queue| >= 224 then o.(senders := o.senders - {i})
                                 else o.(senders := o.senders[i := Ready(data, reliable)])
  {
  }

  /** A frame is reserved exactly if with its newline it is at most 1 MiB and the output
      then holds at most 4 MiB. A stream message that is not is dropped; a reliable one has
      the connection closed. */
  lemma ReservationExactly(o: Output, i: nat)
    requires i in o.senders && o.senders[i].Ready?
    ensures var data := o.senders[i].data;
            var size := |data| + 1;
            var fits := size <= 1048576 && o.bytes + size <= 4194304;
            Reserve(o, i) == if fits then o.(senders := o.senders[i := Reserved(data + [10], o.senders[i].reliable)], bytes := o.bytes + size)
                             else if o.senders[i].reliable then o.(senders := o.senders[i := Failing])
                             else o.(senders := o.senders - {i})
  {
  }

  /** A reserved frame joins the queue at its end, or gives its bytes back: when the output
      was closed, or when the queue stayed full, which closes it for a reliable one. */
  lemma EndOfSendExactly(o: Output, i: nat)
    requires i in o.senders
    ensures o.senders[i].Reserved? ==>
              var frame, reliable := o.senders[i].frame, o.senders[i].reliable;
              && Enqueue(o, i) == o.(senders := o.senders - {i}, queue := o.queue + [frame], enqueued := o.enqueued + [frame])
              && Abandon(o, i) == o.(senders := o.senders - {i}, bytes := o.bytes - |frame|)
              && Overflow(o, i) == if reliable then o.(senders := o.senders[i := Failing], bytes := o.bytes - |frame|)
                                   else o.(senders := o.senders - {i}, bytes := o.bytes - |frame|)
    ensures CloseAndLeave(o, i) == o.(senders := o.senders - {i}, closed := true)
  {
  }

  // ----- Delivery ------------------------------------------------------------

  lemma {:induction false} JoinRuns(o: Output, a: seq<Step>, b: seq<Step>)
    requires Possible(o, a) && Possible(After(o, a), b)
    ensures Possible(o, a + b) && After(o, a + b) == After(After(o, a), b)
    decreases |a|
  {
    if a == [] {
      assert a + b == b;
    } else {
      JoinRuns(Apply(o, a[0]), a[1..], b);
      assert (a + b)[1..] == a[1..] + b;
    }
  }

  lemma OneStep(o: Output, step: Step)
    requires Enabled(o, step)
    ensures Possible(o, [step]) && After(o, [step]) == Apply(o, step)
  {
    assert [step][1..] == [];
  }

  /** The writer has nothing in hand or is writing. */
  predicate Alive(o: Output) {
    o.writer.Idle? || o.writer.Writing?
  }

  /** A writer at work can finish the frame in its hand. */
  lemma FinishesFrame(o: Output) returns (steps: seq<Step>)
    requires Inv(o) && o.writer.Writing?
    ensures Possible(o, steps) && Inv(After(o, steps))
    ensures var o' := After(o, steps);
            && o'.writer == Idle && o'.queue == o.queue && o'.enqueued == o.enqueued && o'.senders == o.senders && o'.closed == o.closed
            && o'.bytes == o.bytes - |o.writer.frame|
  {
    steps := [];
    if o.writer.remaining != [] {
      var all := WriteSomeStep(|o.writer.remaining|);
      OneStep(o, all);
      OneStep(Apply(o, all), WriteDoneStep);
      JoinRuns(o, [all], [WriteDoneStep]);
      steps := [all] + [WriteDoneStep];
    } else {
      OneStep(o, WriteDoneStep);
      steps := [WriteDoneStep];
    }
    RunKeeps(o, steps);
  }

  /** From every reachable state with its writer alive, everything queued can reach the wire. */
  lemma {:induction false} QueueReachesTheWire(o: Output) returns (steps: seq<Step>)
    requires Inv(o) && Alive(o)
    ensures Possible(o, steps) && Inv(After(o, steps))
    ensures var o' := After(o, steps);
            && o'.writer == Idle && o'.queue == [] && o'.enqueued == o.enqueued && o'.senders == o.senders && o'.closed == o.closed
            && o'.wire == Joined(o.enqueued) && o'.written == o.enqueued && o'.bytes == ReservedBytes(o.senders)
    decreases |o.queue|, if o.writer.Writing? then 1 else 0
  {
    if o.writer.Writing? {
      var first := FinishesFrame(o);
      var rest := QueueReachesTheWire(After(o, first));
      JoinRuns(o, first, rest);
      steps := first + rest;
    } else if o.queue != [] {
      StepKeeps(o, TakeStep);
      OneStep(o, TakeStep);
      var rest := QueueReachesTheWire(Apply(o, TakeStep));
      JoinRuns(o, [TakeStep], rest);
      steps := [TakeStep] + rest;
    } else {
      assert o.written + o.queue == o.written;
      steps := [];
    }
  }

  /** The four steps of a send. */
  function SendSteps(i: nat, data: seq<Byte>, reliable: bool): seq<Step> {
    [BeginStep(i, data, reliable), RoomStep(i), ReserveStep(i), EnqueueStep(i)]
  }

  lemma TwoSteps(o: Output, first: Step, second: Step)
    requires Enabled(o, first) && Enabled(Apply(o, first), second)
    ensures Possible(o, [first, second]) && After(o, [first, second]) == Apply(Apply(o, first), second)
  {
    OneStep(o, first);
    OneStep(Apply(o, first), second);
    JoinRuns(o, [first], [second]);
    assert [first, second] == [first] + [second];
  }

  lemma SendEnters(o: Output, i: nat, data: seq<Byte>, reliable: bool)
    requires !o.closed && i !in o.senders && |o.queue| < 224
    ensures var steps := [BeginStep(i, data, reliable), RoomStep(i)];
            Possible(o, steps) && After(o, steps) == o.(senders := o.senders[i := Ready(data, reliable)])
  {
    EntryExactly(o, i, data, reliable);
    var entered := BeginSend(o, i, data, reliable);
    EntryExactly(entered, i, data, reliable);
    TwoSteps(o, BeginStep(i, data, reliable), RoomStep(i));
    assert entered.senders[i := Ready(data, reliable)] == o.senders[i := Ready(data, reliable)];
  }

  lemma SendQueues(o: Output, i: nat, data: seq<Byte>, reliable: bool)
    requires i in o.senders && o.senders[i] == Ready(data, reliable) && |o.queue| < 224
    requires |data| + 1 <= 1048576 && o.bytes + |data| + 1 <= 4194304
    ensures var steps := [ReserveStep(i), EnqueueStep(i)];
            && Possible(o, steps)
            && After(o, steps) == o.(senders := o.senders - {i}, queue := o.queue + [data + [10]], enqueued := o.enqueued + [data + [10]],
                                     bytes := o.bytes + |data| + 1)
  {
    ReservationExactly(o, i);
    var reserved := Reserve(o, i);
    EndOfSendExactly(reserved, i);
    TwoSteps(o, ReserveStep(i), EnqueueStep(i));
    assert reserved.senders - {i} == o.senders - {i};
  }

  lemma SendsThrough(o: Output, i: nat, data: seq<Byte>, reliable: bool)
    requires !o.closed && i !in o.senders && |o.queue| < 224
    requires |data| + 1 <= 1048576 && o.bytes + |data| + 1 <= 4194304
    ensures var steps := SendSteps(i, data, reliable);
            && Possible(o, steps)
            && After(o, steps) == o.(queue := o.queue + [data + [10]], enqueued := o.enqueued + [data + [10]], bytes := o.bytes + |data| + 1)
  {
    SendEnters(o, i, data, reliable);
    var entered := o.(senders := o.senders[i := Ready(data, reliable)]);
    SendQueues(entered, i, data, reliable);
    JoinRuns(o, [BeginStep(i, data, reliable), RoomStep(i)], [ReserveStep(i), EnqueueStep(i)]);
    assert SendSteps(i, data, reliable) == [BeginStep(i, data, reliable), RoomStep(i)] + [ReserveStep(i), EnqueueStep(i)];
    assert entered.senders - {i} == o.senders;
  }

  /** From every reachable open state with its writer alive and room next to what others
      have reserved: a message can reach the wire whole, with its newline, after
      everything queued before it. */
  lemma MessageReachesTheWire(o: Output, i: nat, data: seq<Byte>, reliable: bool) returns (steps: seq<Step>)
    requires Inv(o) && Alive(o) && !o.closed && i !in o.senders
    requires |data| + 1 <= 1048576 && ReservedBytes(o.senders) + |data| + 1 <= 4194304
    ensures Possible(o, steps)
    ensures After(o, steps).wire == Joined(o.enqueued) + data + [10] && After(o, steps).senders == o.senders && !After(o, steps).closed
  {
    var first := QueueReachesTheWire(o);
    var drained := After(o, first);
    SendsThrough(drained, i, data, reliable);
    var send := SendSteps(i, data, reliable);
    RunKeeps(drained, send);
    var last := QueueReachesTheWire(After(drained, send));
    JoinRuns(drained, send, last);
    JoinRuns(o, first, send + last);
    steps := first + (send + last);
    JoinedAppend(o.enqueued, data + [10]);
  }
}
