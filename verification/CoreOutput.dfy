/** The Core's output connection: senders reserving bytes, a bounded queue, one
    writer, and close at any moment. One step per atomic action of a goroutine. */
module CoreOutput {
  import opened Wrappers
  import opened Words
  import opened Bytes

  const MAX_MESSAGE: nat := 1048576
  const MAX_OUTPUT: nat := 4 * MAX_MESSAGE
  const QUEUE_CAPACITY: nat := 256
  const REPLY_ROOM: nat := 32
  const NEWLINE: Byte := 10

  type Frame = seq<Byte>

  /** A sender that got in: a stream message checks for room first, a reliable one
      closes the connection when it cannot be queued. */
  datatype Sender =
    | Entered(data: seq<Byte>, reliable: bool)
    | Ready(data: seq<Byte>, reliable: bool)
    | Reserved(frame: Frame, reliable: bool)
    | Failing

  datatype Writer =
    | Idle
    | Writing(frame: Frame, remaining: Frame)
    | Failed(frame: Frame)
    | Closing
    | Waiting
    | Draining
    | Finished

  /** `enqueued` is every frame ever queued, `written` the ones written whole, and
      `wire` what the connection took; `lost` is the frame a failed write left off. */
  datatype Output = Output(
    closed: bool,
    bytes: int,
    queue: seq<Frame>,
    senders: map<nat, Sender>,
    writer: Writer,
    wire: seq<Byte>,
    enqueued: seq<Frame>,
    written: seq<Frame>,
    lost: seq<Frame>,
    drained: seq<Frame>)

  const OPENED: Output := Output(false, 0, [], map[], Idle, [], [], [], [], [])

  function FrameOf(data: seq<Byte>): Frame {
    data + [NEWLINE]
  }

  // ----- Senders -------------------------------------------------------------

  function BeginSend(o: Output, i: nat, data: seq<Byte>, reliable: bool): Output {
    if o.closed then o else o.(senders := o.senders[i := Entered(data, reliable)])
  }

  function Leave(o: Output, i: nat): Output {
    o.(senders := o.senders - {i})
  }

  function CheckRoom(o: Output, i: nat): Output
    requires i in o.senders && o.senders[i].Entered?
  {
    var s := o.senders[i];
    if !s.reliable && |o.queue| >= QUEUE_CAPACITY - REPLY_ROOM then Leave(o, i)
    else o.(senders := o.senders[i := Ready(s.data, s.reliable)])
  }

  /** What a sender that cannot go on does: a reliable one has the connection closed. */
  function GiveUp(o: Output, i: nat, reliable: bool): Output {
    if reliable then o.(senders := o.senders[i := Failing]) else Leave(o, i)
  }

  function Reserve(o: Output, i: nat): Output
    requires i in o.senders && o.senders[i].Ready?
  {
    var s := o.senders[i];
    if |s.data| + 1 > MAX_MESSAGE || o.bytes + |s.data| + 1 > MAX_OUTPUT then GiveUp(o, i, s.reliable)
    else o.(senders := o.senders[i := Reserved(FrameOf(s.data), s.reliable)], bytes := o.bytes + |s.data| + 1)
  }

  function Enqueue(o: Output, i: nat): Output
    requires i in o.senders && o.senders[i].Reserved?
  {
    Leave(o, i).(queue := o.queue + [o.senders[i].frame], enqueued := o.enqueued + [o.senders[i].frame])
  }

  /** The connection is closed: the reservation goes back. */
  function Abandon(o: Output, i: nat): Output
    requires i in o.senders && o.senders[i].Reserved?
  {
    Leave(o, i).(bytes := o.bytes - |o.senders[i].frame|)
  }

  /** The queue is full, or stayed full too long for a reliable message. */
  function Overflow(o: Output, i: nat): Output
    requires i in o.senders && o.senders[i].Reserved?
  {
    GiveUp(o, i, o.senders[i].reliable).(bytes := o.bytes - |o.senders[i].frame|)
  }

  function CloseAndLeave(o: Output, i: nat): Output {
    Leave(o, i).(closed := true)
  }

  // ----- The writer ----------------------------------------------------------

  function Take(o: Output): Output
    requires o.queue != []
  {
    o.(queue := o.queue[1..], writer := Writing(o.queue[0], o.queue[0]))
  }

  function WriteSome(o: Output, n: nat): Output
    requires o.writer.Writing? && n <= |o.writer.remaining|
  {
    o.(wire := o.wire + o.writer.remaining[..n], writer := Writing(o.writer.frame, o.writer.remaining[n..]))
  }

  function WriteDone(o: Output): Output
    requires o.writer.Writing?
  {
    o.(bytes := o.bytes - |o.writer.frame|, written := o.written + [o.writer.frame], writer := Idle)
  }

  /** The connection took `n` more bytes and reported an error. */
  function WriteFails(o: Output, n: nat): Output
    requires o.writer.Writing? && n <= |o.writer.remaining|
  {
    o.(wire := o.wire + o.writer.remaining[..n], writer := Failed(o.writer.frame), lost := [o.writer.frame])
  }

  function ReleaseFailed(o: Output): Output
    requires o.writer.Failed?
  {
    o.(bytes := o.bytes - |o.writer.frame|, writer := Closing)
  }

  function DrainOne(o: Output): Output
    requires o.queue != []
  {
    o.(bytes := o.bytes - |o.queue[0]|, queue := o.queue[1..], drained := o.drained + [o.queue[0]])
  }

  // ----- Steps ---------------------------------------------------------------

  datatype Step =
    | BeginStep(sender: nat, data: seq<Byte>, reliable: bool)
    | RoomStep(sender: nat)
    | ReserveStep(sender: nat)
    | EnqueueStep(sender: nat)
    | AbandonStep(sender: nat)
    | OverflowStep(sender: nat)
    | CloseAndLeaveStep(sender: nat)
    | CloseStep
    | TakeStep
    | WriteSomeStep(count: nat)
    | WriteDoneStep
    | WriteFailsStep(count: nat)
    | ReleaseFailedStep
    | WriterClosesStep
    | WriterStopsStep
    | StartDrainStep
    | DrainStep
    | FinishStep

  predicate HasReserved(o: Output, i: nat) {
    i in o.senders && o.senders[i].Reserved?
  }

  predicate Enabled(o: Output, step: Step) {
    match step
    case BeginStep(i, data, reliable) => i !in o.senders
    case RoomStep(i) => i in o.senders && o.senders[i].Entered?
    case ReserveStep(i) => i in o.senders && o.senders[i].Ready?
    case EnqueueStep(i) => HasReserved(o, i) && |o.queue| < QUEUE_CAPACITY
    case AbandonStep(i) => HasReserved(o, i) && o.closed
    case OverflowStep(i) => HasReserved(o, i) && (o.senders[i].reliable || |o.queue| == QUEUE_CAPACITY)
    case CloseAndLeaveStep(i) => i in o.senders && o.senders[i].Failing?
    case CloseStep => true
    case TakeStep => o.writer.Idle? && o.queue != []
    case WriteSomeStep(n) => o.writer.Writing? && 0 < n <= |o.writer.remaining|
    case WriteDoneStep => o.writer.Writing? && o.writer.remaining == []
    case WriteFailsStep(n) => o.writer.Writing? && o.writer.remaining != [] && n <= |o.writer.remaining|
    case ReleaseFailedStep => o.writer.Failed?
    case WriterClosesStep => o.writer.Closing?
    case WriterStopsStep => o.writer.Idle? && o.closed
    case StartDrainStep => o.writer.Waiting? && o.senders == map[]
    case DrainStep => o.writer.Draining? && o.queue != []
    case FinishStep => o.writer.Draining? && o.queue == []
  }

  function Apply(o: Output, step: Step): Output
    requires Enabled(o, step)
  {
    match step
    case BeginStep(i, data, reliable) => BeginSend(o, i, data, reliable)
    case RoomStep(i) => CheckRoom(o, i)
    case ReserveStep(i) => Reserve(o, i)
    case EnqueueStep(i) => Enqueue(o, i)
    case AbandonStep(i) => Abandon(o, i)
    case OverflowStep(i) => Overflow(o, i)
    case CloseAndLeaveStep(i) => CloseAndLeave(o, i)
    case CloseStep => o.(closed := true)
    case TakeStep => Take(o)
    case WriteSomeStep(n) => WriteSome(o, n)
    case WriteDoneStep => WriteDone(o)
    case WriteFailsStep(n) => WriteFails(o, n)
    case ReleaseFailedStep => ReleaseFailed(o)
    case WriterClosesStep => o.(closed := true, writer := Waiting)
    case WriterStopsStep => o.(writer := Waiting)
    case StartDrainStep => o.(writer := Draining)
    case DrainStep => DrainOne(o)
    case FinishStep => o.(writer := Finished)
  }

  // ----- Sums ----------------------------------------------------------------

  function Weight(s: Sender): nat {
    if s.Reserved? then |s.frame| else 0
  }

  ghost function ReservedBytes(senders: map<nat, Sender>): nat
    decreases |senders|
  {
    if senders == map[] then 0
    else
      var i :| i in senders;
      Weight(senders[i]) + ReservedBytes(senders - {i})
  }

  lemma {:induction false} ReservedWithout(senders: map<nat, Sender>, i: nat)
    requires i in senders
    ensures ReservedBytes(senders) == Weight(senders[i]) + ReservedBytes(senders - {i})
    decreases |senders|
  {
    var j :| j in senders && ReservedBytes(senders) == Weight(senders[j]) + ReservedBytes(senders - {j});
    if i != j {
      ReservedWithout(senders - {j}, i);
      ReservedWithout(senders - {i}, j);
      assert senders - {j} - {i} == senders - {i} - {j};
    }
  }

  lemma ReservedWith(senders: map<nat, Sender>, i: nat, s: Sender)
    ensures ReservedBytes(senders[i := s]) == Weight(s) + ReservedBytes(senders - {i})
  {
    ReservedWithout(senders[i := s], i);
    assert senders[i := s] - {i} == senders - {i};
  }

  function TotalBytes(frames: seq<Frame>): nat {
    if frames == [] then 0 else |frames[0]| + TotalBytes(frames[1..])
  }

  lemma {:induction false} TotalAppend(frames: seq<Frame>, f: Frame)
    ensures TotalBytes(frames + [f]) == TotalBytes(frames) + |f|
    decreases |frames|
  {
    if frames == [] {
      assert [f][1..] == [];
    } else {
      TotalAppend(frames[1..], f);
      assert (frames + [f])[1..] == frames[1..] + [f];
    }
  }

  function Joined(frames: seq<Frame>): seq<Byte> {
    if frames == [] then [] else Joined(frames[..|frames| - 1]) + frames[|frames| - 1]
  }

  function InHand(w: Writer): nat {
    if w.Writing? || w.Failed? then |w.frame| else 0
  }

  // ----- The invariant -------------------------------------------------------

  /** Every reserved byte is in exactly one place. */
  ghost predicate Conserved(o: Output) {
    o.bytes == ReservedBytes(o.senders) + TotalBytes(o.queue) + InHand(o.writer) && o.bytes <= MAX_OUTPUT
  }

  /** The wire carries whole frames in queue order, then at most a piece of the next. */
  predicate Ordered(o: Output) {
    match o.writer
    case Idle => o.lost == [] && o.drained == [] && o.enqueued == o.written + o.queue && o.wire == Joined(o.written)
    case Writing(frame, remaining) =>
      && o.lost == [] && o.drained == [] && o.enqueued == o.written + [frame] + o.queue
      && |remaining| <= |frame| && remaining == frame[|frame| - |remaining|..]
      && o.wire == Joined(o.written) + frame[..|frame| - |remaining|]
    case _ => Stopped(o)
  }

  predicate Stopped(o: Output) {
    && o.enqueued == o.written + o.lost + o.drained + o.queue && |o.lost| <= 1
    && Joined(o.written) <= o.wire
    && (o.lost == [] ==> o.wire == Joined(o.written))
    && (o.lost != [] ==> o.wire[|Joined(o.written)|..] <= o.lost[0])
  }

  /** The writer only stops for good once nothing new can be sent. */
  predicate Shut(o: Output) {
    && (o.writer.Waiting? || o.writer.Draining? || o.writer.Finished? ==> o.closed)
    && (o.writer.Draining? || o.writer.Finished? ==> o.senders == map[])
    && (o.writer.Finished? ==> o.queue == [])
    && (o.writer.Failed? || o.writer.Closing? || o.writer.Waiting? ==> o.drained == [])
    && (o.writer.Failed? ==> o.lost == [o.writer.frame])
  }

  predicate Framed(frames: seq<Frame>) {
    forall i :: 0 <= i < |frames| ==> 0 < |frames[i]| <= MAX_MESSAGE && frames[i][|frames[i]| - 1] == NEWLINE
  }

  predicate Sized(o: Output) {
    && |o.queue| <= QUEUE_CAPACITY
    && Framed(o.enqueued)
    && forall i :: i in o.senders && o.senders[i].Reserved? ==> Framed([o.senders[i].frame])
  }

  ghost predicate Inv(o: Output) {
    Conserved(o) && Ordered(o) && Shut(o) && Sized(o)
  }

  lemma SenderConserved(o: Output, step: Step)
    requires Conserved(o) && Enabled(o, step)
    requires step.BeginStep? || step.RoomStep? || step.ReserveStep? || step.EnqueueStep? || step.AbandonStep? || step.OverflowStep? || step.CloseAndLeaveStep?
    ensures Conserved(Apply(o, step))
  {
    var i := step.sender;
    var o' := Apply(o, step);
    if i in o.senders {
      ReservedWithout(o.senders, i);
    } else {
      assert o.senders - {i} == o.senders;
    }
    if i in o'.senders {
      ReservedWith(o.senders, i, o'.senders[i]);
      assert o'.senders == o.senders[i := o'.senders[i]];
    } else {
      assert o'.senders == o.senders - {i};
    }
    if step.EnqueueStep? {
      TotalAppend(o.queue, o.senders[i].frame);
    }
  }

  predicate IsSender(step: Step) {
    || step.BeginStep? || step.RoomStep? || step.ReserveStep? || step.EnqueueStep? || step.AbandonStep?
    || step.OverflowStep? || step.CloseAndLeaveStep?
  }

  lemma WriterConserved(o: Output, step: Step)
    requires Conserved(o) && Enabled(o, step) && !IsSender(step)
    ensures Conserved(Apply(o, step))
  {
  }

  lemma JoinedAppend(frames: seq<Frame>, f: Frame)
    ensures Joined(frames + [f]) == Joined(frames) + f
  {
    assert (frames + [f])[..|frames|] == frames;
  }

  lemma EnqueueOrdered(o: Output, i: nat)
    requires Ordered(o) && HasReserved(o, i)
    ensures Ordered(Enqueue(o, i))
  {
    var f := o.senders[i].frame;
    match o.writer
    case Idle => assert o.written + o.queue + [f] == o.written + (o.queue + [f]);
    case Writing(frame, remaining) => assert o.written + [frame] + o.queue + [f] == o.written + [frame] + (o.queue + [f]);
    case _ => assert o.written + o.lost + o.drained + o.queue + [f] == o.written + o.lost + o.drained + (o.queue + [f]);
  }

  predicate SameOrder(o: Output, o': Output) {
    && o'.writer == o.writer && o'.wire == o.wire && o'.enqueued == o.enqueued && o'.written == o.written
    && o'.lost == o.lost && o'.drained == o.drained && o'.queue == o.queue
  }

  lemma SameOrdered(o: Output, o': Output)
    requires Ordered(o) && SameOrder(o, o')
    ensures Ordered(o')
  {
  }

  lemma SendersKeepOrder(o: Output, step: Step)
    requires Enabled(o, step) && (IsSender(step) || step.CloseStep?) && !step.EnqueueStep?
    ensures SameOrder(o, Apply(o, step))
  {
  }

  lemma SenderOrdered(o: Output, step: Step)
    requires Ordered(o) && Enabled(o, step) && (IsSender(step) || step.CloseStep?)
    ensures Ordered(Apply(o, step))
  {
    if step.EnqueueStep? {
      EnqueueOrdered(o, step.sender);
    } else {
      SendersKeepOrder(o, step);
      SameOrdered(o, Apply(o, step));
    }
  }

  lemma TakeOrdered(o: Output)
    requires Ordered(o) && Enabled(o, TakeStep)
    ensures Ordered(Take(o))
  {
    assert o.written + [o.queue[0]] + o.queue[1..] == o.written + o.queue;
    assert Joined(o.written) + o.queue[0][..0] == Joined(o.written);
  }

  lemma WriteSomeOrdered(o: Output, n: nat)
    requires Ordered(o) && Enabled(o, WriteSomeStep(n))
    ensures Ordered(WriteSome(o, n))
  {
    var w := o.writer;
    var at := |w.frame| - |w.remaining|;
    assert w.frame[..at] + w.remaining[..n] == w.frame[..at + n];
    assert Joined(o.written) + w.frame[..at] + w.remaining[..n] == Joined(o.written) + w.frame[..at + n];
  }

  lemma WriteDoneOrdered(o: Output)
    requires Ordered(o) && Enabled(o, WriteDoneStep)
    ensures Ordered(WriteDone(o))
  {
    JoinedAppend(o.written, o.writer.frame);
    assert o.writer.frame[..|o.writer.frame|] == o.writer.frame;
  }

  lemma WritingOrdered(o: Output, step: Step)
    requires Ordered(o) && Enabled(o, step) && (step.TakeStep? || step.WriteSomeStep? || step.WriteDoneStep?)
    ensures Ordered(Apply(o, step))
  {
    match step
    case TakeStep => TakeOrdered(o);
    case WriteSomeStep(n) => WriteSomeOrdered(o, n);
    case WriteDoneStep => WriteDoneOrdered(o);
  }

  /** One more piece of a frame behind what is there. */
  lemma PieceAfter(before: seq<Byte>, frame: Frame, at: nat, n: nat)
    requires at + n <= |frame|
    ensures before + frame[..at] + frame[at..][..n] == before + frame[..at + n]
    ensures before <= before + frame[..at + n] && (before + frame[..at + n])[|before|..] <= frame
  {
    assert frame[..at] + frame[at..][..n] == frame[..at + n];
    assert (before + frame[..at + n])[|before|..] == frame[..at + n];
  }

  lemma WriteFailsOrdered(o: Output, n: nat)
    requires Ordered(o) && Enabled(o, WriteFailsStep(n))
    ensures Ordered(WriteFails(o, n))
  {
    var w := o.writer;
    PieceAfter(Joined(o.written), w.frame, |w.frame| - |w.remaining|, n);
    assert o.written + [w.frame] + [] + o.queue == o.enqueued;
  }

  lemma DrainOrdered(o: Output)
    requires Ordered(o) && Enabled(o, DrainStep)
    ensures Ordered(DrainOne(o))
  {
    assert o.written + o.lost + (o.drained + [o.queue[0]]) + o.queue[1..] == o.written + o.lost + o.drained + o.queue;
  }

  lemma StoppedOrdered(o: Output, step: Step)
    requires Ordered(o) && Shut(o) && Enabled(o, step)
    requires !IsSender(step) && !step.CloseStep? && !step.TakeStep? && !step.WriteSomeStep? && !step.WriteDoneStep?
    ensures Ordered(Apply(o, step))
  {
    match step
    case WriteFailsStep(n) => WriteFailsOrdered(o, n);
    case DrainStep => DrainOrdered(o);
    case WriterStopsStep => assert o.written + [] + [] + o.queue == o.enqueued;
    case _ =>
  }

  lemma SizedStep(o: Output, step: Step)
    requires Sized(o) && Enabled(o, step)
    ensures Sized(Apply(o, step))
  {
  }

  /** A sender changes nothing the writer's shutdown depends on but the sender map. */
  lemma SenderShut(o: Output, step: Step)
    requires Shut(o) && Enabled(o, step) && IsSender(step) && !step.EnqueueStep?
    ensures Shut(Apply(o, step))
  {
    SendersKeepOrder(o, step);
    SendersShrinkWhenClosed(o, step);
  }

  lemma SendersShrinkWhenClosed(o: Output, step: Step)
    requires Enabled(o, step) && IsSender(step)
    ensures o.closed ==> Apply(o, step).closed && (o.senders == map[] ==> Apply(o, step).senders == map[])
  {
  }

  lemma WriterShut(o: Output, step: Step)
    requires Shut(o) && Enabled(o, step) && !IsSender(step)
    requires o.writer.Idle? || o.writer.Writing? ==> o.lost == [] && o.drained == []
    ensures Shut(Apply(o, step))
  {
  }

  lemma NothingLostYet(o: Output)
    requires Ordered(o)
    ensures o.writer.Idle? || o.writer.Writing? ==> o.lost == [] && o.drained == []
  {
  }

  lemma ShutStep(o: Output, step: Step)
    requires Shut(o) && Ordered(o) && Enabled(o, step)
    ensures Shut(Apply(o, step))
  {
    if step.EnqueueStep? {
    } else if IsSender(step) {
      SenderShut(o, step);
    } else {
      NothingLostYet(o);
      WriterShut(o, step);
    }
  }

  lemma StepKeeps(o: Output, step: Step)
    requires Inv(o) && Enabled(o, step)
    ensures Inv(Apply(o, step))
  {
    SizedStep(o, step);
    ShutStep(o, step);
    if IsSender(step) {
      SenderConserved(o, step);
      SenderOrdered(o, step);
    } else {
      WriterConserved(o, step);
      if step.CloseStep? {
        SenderOrdered(o, step);
      } else if step.TakeStep? || step.WriteSomeStep? || step.WriteDoneStep? {
        WritingOrdered(o, step);
      } else {
        StoppedOrdered(o, step);
      }
    }
  }

  // ----- Whole runs ----------------------------------------------------------

  predicate Possible(o: Output, steps: seq<Step>)
    decreases |steps|
  {
    steps == [] || (Enabled(o, steps[0]) && Possible(Apply(o, steps[0]), steps[1..]))
  }

  function After(o: Output, steps: seq<Step>): Output
    requires Possible(o, steps)
    decreases |steps|
  {
    if steps == [] then o else After(Apply(o, steps[0]), steps[1..])
  }

  lemma {:induction false} RunKeeps(o: Output, steps: seq<Step>)
    requires Inv(o) && Possible(o, steps)
    ensures Inv(After(o, steps))
    decreases |steps|
  {
    if steps != [] {
      StepKeeps(o, steps[0]);
      RunKeeps(Apply(o, steps[0]), steps[1..]);
    }
  }

  /** Under any interleaving the byte count is what is reserved, queued or being
      written, within its budget, and nothing is left when all are done. */
  lemma BytesAreConserved(steps: seq<Step>)
    requires Possible(OPENED, steps)
    ensures
      var o := After(OPENED, steps);
      && o.bytes == ReservedBytes(o.senders) + TotalBytes(o.queue) + InHand(o.writer)
      && 0 <= o.bytes <= MAX_OUTPUT && |o.queue| <= QUEUE_CAPACITY
      && (o.writer.Finished? ==> o.bytes == 0 && o.senders == map[] && o.closed)
  {
    RunKeeps(OPENED, steps);
  }

  /** The connection carries whole queued frames in order, each one line, and at most
      one piece of a frame after them. */
  lemma WireIsWholeFramesInOrder(steps: seq<Step>)
    requires Possible(OPENED, steps)
    ensures
      var o := After(OPENED, steps);
      && o.written <= o.enqueued && Framed(o.enqueued)
      && Joined(o.written) <= o.wire
      && (o.wire == Joined(o.written) ||
          (|o.written| < |o.enqueued| && o.wire[|Joined(o.written)|..] <= o.enqueued[|o.written|]))
      && (o.writer.Idle? ==> o.wire == Joined(o.written))
  {
    RunKeeps(OPENED, steps);
    OrderedMeans(After(OPENED, steps));
  }

  lemma OrderedMeans(o: Output)
    requires Ordered(o)
    ensures o.written <= o.enqueued && Joined(o.written) <= o.wire
    ensures
      || o.wire == Joined(o.written)
      || (|o.written| < |o.enqueued| && o.wire[|Joined(o.written)|..] <= o.enqueued[|o.written|])
    ensures o.writer.Idle? ==> o.wire == Joined(o.written)
  {
    match o.writer
    case Idle =>
    case Writing(frame, remaining) =>
      assert o.wire[|Joined(o.written)|..] == frame[..|frame| - |remaining|];
      assert o.enqueued[|o.written|] == frame;
    case _ => StoppedMeans(o);
  }

  lemma StoppedMeans(o: Output)
    requires Stopped(o)
    ensures o.written <= o.enqueued && Joined(o.written) <= o.wire
    ensures
      || o.wire == Joined(o.written)
      || (|o.written| < |o.enqueued| && o.wire[|Joined(o.written)|..] <= o.enqueued[|o.written|])
  {
    if o.lost != [] {
      assert o.enqueued[|o.written|] == o.lost[0];
    }
  }

  /** Once the writer has stopped, not a byte more reaches the connection, and once
      the output is closed no new sender gets in. */
  lemma {:induction false} NothingAfterTheEnd(o: Output, steps: seq<Step>)
    requires Possible(o, steps) && !o.writer.Idle? && !o.writer.Writing?
    ensures After(o, steps).wire == o.wire && !After(o, steps).writer.Idle? && !After(o, steps).writer.Writing?
    decreases |steps|
  {
    if steps != [] {
      NothingAfterTheEnd(Apply(o, steps[0]), steps[1..]);
    }
  }

  // ----- Progress ------------------------------------------------------------

  function SenderSteps(s: Sender): nat {
    match s
    case Entered(_, _) => 4
    case Ready(_, _) => 3
    case Reserved(_, _) => 2
    case Failing => 1
  }

  /** What a sender does next when the output is closed. */
  function ClosedStep(i: nat, s: Sender): Step {
    match s
    case Entered(_, _) => RoomStep(i)
    case Ready(_, _) => ReserveStep(i)
    case Reserved(_, _) => AbandonStep(i)
    case Failing => CloseAndLeaveStep(i)
  }

  /** No sender is stuck after a close, so the writer always gets to drain. */
  lemma SendersLeave(o: Output, i: nat)
    requires o.closed && i in o.senders
    ensures
      var o' := (assert Enabled(o, ClosedStep(i, o.senders[i])); Apply(o, ClosedStep(i, o.senders[i])));
      && o'.closed && (i in o'.senders ==> SenderSteps(o'.senders[i]) < SenderSteps(o.senders[i]))
      && o'.senders - {i} == o.senders - {i}
  {
  }

  // ----- The writer's own loop -----------------------------------------------

  /** What one call of the connection's Write takes of the bytes it is given, and
      whether it reports an error; no answer left means it is broken. */
  datatype Answer = Answer(count: nat, failed: bool)

  /** How many of `n` bytes a connection with these answers takes before it fails or is
      done with them. */
  function TakenOf(answers: seq<Answer>, n: nat): (taken: nat)
    ensures taken <= n
  {
    if n == 0 || answers == [] then 0
    else
      var count := if answers[0].count < n then answers[0].count else n;
      if answers[0].failed || count == 0 then count else count + TakenOf(answers[1..], n - count)
  }

  /** No answer needed for `n` bytes is a failure or takes nothing. */
  predicate TakesAll(answers: seq<Answer>, n: nat) {
    n == 0 || (answers != [] && !answers[0].failed && answers[0].count > 0
               && (answers[0].count >= n || TakesAll(answers[1..], n - answers[0].count)))
  }

  class Connection {
    var wire: seq<Byte>
    var answers: seq<Answer>

    constructor (answers: seq<Answer>)
      ensures wire == [] && this.answers == answers
    {
      wire, this.answers := [], answers;
    }

    method Write(data: seq<Byte>) returns (count: nat, failed: bool)
      modifies this
      ensures count <= |data| && wire == old(wire) + data[..count]
      ensures old(answers) == [] ==> count == 0 && failed && answers == []
      ensures old(answers) != [] ==>
                && count == (if old(answers)[0].count < |data| then old(answers)[0].count else |data|)
                && failed == old(answers)[0].failed && answers == old(answers)[1..]
    {
      if answers == [] {
        return 0, true;
      }
      var answer := answers[0];
      answers := answers[1..];
      count := if answer.count < |data| then answer.count else |data|;
      failed := answer.failed;
      wire := wire + data[..count];
    }
  }

  /** Writes one frame as the writer goroutine does: until nothing remains, or until
      a write fails or takes nothing. The whole frame reaches the wire exactly if no
      answer on the way fails; otherwise as much of it as was taken. */
  method WriteFrame(connection: Connection, frame: Frame) returns (failed: bool)
    modifies connection
    ensures !failed <==> TakesAll(old(connection.answers), |frame|)
    ensures !failed ==> connection.wire == old(connection.wire) + frame
    ensures connection.wire == old(connection.wire) + frame[..TakenOf(old(connection.answers), |frame|)]
  {
    var remaining := frame;
    ghost var at := 0;
    assert frame[..0] == [];
    while |remaining| > 0
      invariant at <= |frame| && remaining == frame[at..] && connection.wire == old(connection.wire) + frame[..at]
      invariant TakesAll(old(connection.answers), |frame|) <==> TakesAll(connection.answers, |remaining|)
      invariant TakenOf(old(connection.answers), |frame|) == at + TakenOf(connection.answers, |remaining|)
      decreases |remaining|
    {
      var n, error := connection.Write(remaining);
      assert frame[..at] + remaining[..n] == frame[..at + n];
      if error || n == 0 {
        return true;
      }
      at := at + n;
      remaining := remaining[n..];
    }
    assert frame[..at] == frame;
    failed := false;
  }
}
