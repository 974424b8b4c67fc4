/** What the UDP service does with every datagram, and what of a whole series arrives. */
module UdpDelivery {
  import opened Wrappers
  import opened Words
  import opened Bytes
  import opened DomainNames
  import opened UdpFrame
  import opened ReplayWindow
  import opened UdpAssociations

  // ----- One datagram --------------------------------------------------------

  /** Whether an association takes this number: it has a place or can be given one, only its
      own key and source use it, and the number is new and less than 64 below any accepted. */
  predicate Takes(t: Table, id: Id, keyId: Id, source: Source, sequence: Word, now: int) {
    if id in t then
      t[id].keyId == keyId && t[id].source == source && sequence !in t[id].accepted && forall a :: a in t[id].accepted ==> a - sequence < 64
    else |t| < 1024 || |set i | i in t && now - t[i].lastSeen <= 90_000_000_000| < 1024
  }

  /** An IPv4 address, or one in IPv6 clothing. */
  predicate IsV4(from: Destination) {
    from.V4? || (from.V6? && from.v6[..12] == Zeros(10) + [255, 255])
  }

  lemma UnmappedExactly(from: Destination)
    requires !from.Name?
    ensures Unmapped(from) == if from.V6? && IsV4(from) then V4(from.v6[12..]) else from
  {
    if from.V6? {
      var a := from.v6;
      assert a[..12] == a[..10] + [a[10], a[11]];
      assert a[..12] == Zeros(10) + [255, 255] ==> a[..10] == a[..12][..10] == Zeros(10) && a[10] == a[..12][10] && a[11] == a[..12][11];
    }
  }

  /** Names go through on one platform only, and no IPv4 address in IPv6 clothing does. */
  predicate Forwards(service: Service, to: Destination) {
    match to
    case V4(a) => service.safe4(a)
    case V6(a) => !IsV4(to) && service.safe6(a)
    case Name(_) => service.darwin
  }

  lemma RoomIsSurvivors(t: Table, now: int)
    ensures |Swept(t, now)| == |set i | i in t && now - t[i].lastSeen <= 90_000_000_000|
  {
    assert Swept(t, now).Keys == set i | i in t && now - t[i].lastSeen <= 90_000_000_000;
    assert |Swept(t, now)| == |Swept(t, now).Keys|;
  }

  lemma ForwardsDeliverable(service: Service, to: Destination)
    requires to.Name? ==> ValidName(to.name)
    ensures Forwards(service, to) <==> Deliverable(service, to)
  {
    if to.V6? { UnmappedExactly(to); }
  }

  /** The associations used within the last 90 seconds. */
  function Recent(t: Table, now: int): Table {
    map i | i in t && now - t[i].lastSeen <= 90_000_000_000 :: t[i]
  }

  /** Only a new association at a full table has the idle ones dropped. An admitted
      datagram's number is spent and its association used now, slot or not; a refused one
      changes nothing more. */
  lemma AdmitsExactly(t: Table, d: Datagram, source: Source, now: int)
    requires d.sequence > 0
    ensures
      var (t', admitted) := Admit(t, d, source, now);
      var kept := if d.association in t || |t| < 1024 then t else Recent(t, now);
      var spent := if d.association in kept then kept[d.association].accepted else {};
      && (admitted <==> Takes(t, d.association, d.keyId, source, d.sequence, now))
      && t' == (if admitted then kept[d.association := Association(d.keyId, source, spent + {d.sequence}, now)] else kept)
  {
    assert Swept(t, now) == Recent(t, now);
    RoomIsSurvivors(t, now);
  }

  lemma HandlesExactly(service: Service, t: Table, frame: seq<Byte>, source: Source, now: int, slot: bool)
    ensures
      var (t', delivered) := Handle(service, t, frame, source, now, slot);
      match ParseOutbound(service, frame)
      case None => t' == t && delivered == None
      case Some(d) =>
        && t' == Admit(t, d, source, now).0
        && delivered == if Takes(t, d.association, d.keyId, source, d.sequence, now) && slot then Some(d) else None
  {
    match ParseOutbound(service, frame)
    case None =>
    case Some(d) => AdmitsExactly(t, d, source, now);
  }

  /** From the Mac endpoint's call to the Core's tunnel: a datagram arrives exactly if its
      association takes the number, the Core forwards to the destination and a slot is
      free, and then with the same name or address, port and payload. */
  lemma SentIsDelivered(service: Service, t: Table, key: Key, keyId: Id, id: Id, sequence: Word,
                        to: Destination, port: Port, payload: seq<Byte>, source: Source, now: int, slot: bool)
    requires Sendable(to, payload, port) && sequence > 0 && (to.Name? ==> ValidName(to.name))
    requires keyId in service.credentials && service.credentials[keyId] == key
    ensures
      var frame := OutboundFrame(service.mac, key, service.generation, keyId, id, sequence, to, port, payload);
      Handle(service, t, frame, source, now, slot).1 ==
        if Takes(t, id, keyId, source, sequence, now) && Forwards(service, to) && id != Zeros(16) && slot
        then Some(Datagram(keyId, id, sequence, Delivered(to), port, payload)) else None
  {
    var frame := OutboundFrame(service.mac, key, service.generation, keyId, id, sequence, to, port, payload);
    OutboundRoundTrip(service, key, keyId, id, sequence, to, port, payload);
    ForwardsDeliverable(service, to);
    HandlesExactly(service, t, frame, source, now, slot);
  }

  // ----- Living --------------------------------------------------------------

  function TimeOf(step: Step): int {
    match step
    case Frame(_, _, now, _) => now
    case Sweep(at) => at
  }

  lemma StepKeepsRecent(service: Service, t: Table, step: Step, id: Id, used: int)
    requires id in t && t[id].lastSeen >= used && used <= TimeOf(step) <= used + 90_000_000_000
    ensures var t' := Next(service, t, step).0;
            id in t' && t'[id].lastSeen >= used
  {
    match step
    case Sweep(at) => SweepDropsExactly(service, t, at);
    case Frame(frame, source, now, slot) =>
      HandlesExactly(service, t, frame, source, now, slot);
      if ParseOutbound(service, frame).Some? { AdmitsExactly(t, ParseOutbound(service, frame).value, source, now); }
  }

  /** An association in use stays for 90 seconds, whatever else arrives meanwhile. */
  lemma {:induction false} InUseStays(service: Service, t: Table, steps: seq<Step>, id: Id, used: int)
    requires id in t && t[id].lastSeen >= used
    requires forall i :: 0 <= i < |steps| ==> used <= TimeOf(steps[i]) <= used + 90_000_000_000
    ensures StaysListed(service, t, steps, id)
    decreases |steps|
  {
    if steps != [] {
      StepKeepsRecent(service, t, steps[0], id, used);
      InUseStays(service, Next(service, t, steps[0]).0, steps[1..], id, used);
    }
  }

  /** A sweep drops exactly what was idle for longer. */
  lemma SweepDropsExactly(service: Service, t: Table, at: int)
    ensures Next(service, t, Sweep(at)) == (Recent(t, at), None)
  {
    assert Swept(t, at) == Recent(t, at);
  }

  // ----- A series ------------------------------------------------------------

  datatype Send = Send(sequence: Word, to: Destination, port: Port, payload: seq<Byte>, now: int)

  ghost predicate CanSend(service: Service, send: Send) {
    && Sendable(send.to, send.payload, send.port) && send.sequence > 0
    && (send.to.Name? ==> ValidName(send.to.name)) && Forwards(service, send.to)
  }

  ghost function StepOf(service: Service, keyId: Id, id: Id, source: Source, send: Send): Step
    requires keyId in service.credentials && CanSend(service, send)
  {
    Frame(OutboundFrame(service.mac, service.credentials[keyId], service.generation, keyId, id, send.sequence, send.to, send.port, send.payload),
          source, send.now, true)
  }

  function DatagramOf(keyId: Id, id: Id, send: Send): Datagram {
    Datagram(keyId, id, send.sequence, Delivered(send.to), send.port, send.payload)
  }

  /** Every number is new, and less than 64 below each before it. */
  predicate InReach(accepted: set<Word>, sends: seq<Send>) {
    && (forall i :: 0 <= i < |sends| ==> sends[i].sequence !in accepted && forall a :: a in accepted ==> a - sends[i].sequence < 64)
    && (forall i, j :: 0 <= i < j < |sends| ==> sends[i].sequence != sends[j].sequence && sends[i].sequence - sends[j].sequence < 64)
  }

  /** What the service delivers, step by step. */
  ghost function Deliveries(service: Service, t: Table, steps: seq<Step>): seq<Option<Datagram>>
    decreases |steps|
  {
    if steps == [] then [] else [Next(service, t, steps[0]).1] + Deliveries(service, Next(service, t, steps[0]).0, steps[1..])
  }

  lemma FirstOfSeries(service: Service, t: Table, keyId: Id, id: Id, source: Source, sends: seq<Send>)
    requires keyId in service.credentials && id != Zeros(16) && id in t && t[id].keyId == keyId && t[id].source == source
    requires sends != [] && CanSend(service, sends[0]) && InReach(t[id].accepted, sends)
    ensures var (t', delivered) := Next(service, t, StepOf(service, keyId, id, source, sends[0]));
            && delivered == Some(DatagramOf(keyId, id, sends[0]))
            && id in t' && t'[id].keyId == keyId && t'[id].source == source && InReach(t'[id].accepted, sends[1..])
  {
    var send := sends[0];
    var key := service.credentials[keyId];
    OutboundRoundTrip(service, key, keyId, id, send.sequence, send.to, send.port, send.payload);
    ForwardsDeliverable(service, send.to);
    var t' := Next(service, t, StepOf(service, keyId, id, source, send)).0;
    AdmitsExactly(t, DatagramOf(keyId, id, send), source, send.now);
    assert t'[id].accepted == t[id].accepted + {send.sequence};
  }

  /** A whole series on a living association is delivered, each datagram once and in the
      order of arrival, even if the network reordered it by up to 63 places. */
  lemma {:induction false} SeriesIsDelivered(service: Service, t: Table, keyId: Id, id: Id, source: Source, sends: seq<Send>, steps: seq<Step>)
    requires keyId in service.credentials && id != Zeros(16) && id in t && t[id].keyId == keyId && t[id].source == source
    requires InReach(t[id].accepted, sends) && |steps| == |sends|
    requires forall i :: 0 <= i < |sends| ==> CanSend(service, sends[i]) && steps[i] == StepOf(service, keyId, id, source, sends[i])
    ensures var delivered := Deliveries(service, t, steps);
            |delivered| == |sends| && forall i :: 0 <= i < |sends| ==> delivered[i] == Some(DatagramOf(keyId, id, sends[i]))
    decreases |sends|
  {
    if sends != [] {
      FirstOfSeries(service, t, keyId, id, source, sends);
      SeriesIsDelivered(service, Next(service, t, steps[0]).0, keyId, id, source, sends[1..], steps[1..]);
    }
  }

  // ----- The bytes both ends agree on ----------------------------------------

  /** Either direction's frames start with FCXD, a version that tells names from addresses
      and the direction, and say at their place what kind of address follows; an answer's
      source is an IPv4 address even if it came in IPv6 clothing. */
  lemma FramesStartExactly(mac: Mac, key: Key, generation: Word, keyId: Id, association: Id, sequence: Word, to: Destination, port: Port, payload: seq<Byte>)
    ensures Sendable(to, payload, port) ==>
              var frame := OutboundFrame(mac, key, generation, keyId, association, sequence, to, port, payload);
              && |frame| == 112 + |payload| + (if to.Name? then 1 + |to.name| else 0)
              && frame[..8] == [70, 67, 88, 68, if to.Name? then 2 else 1, 1, 0, 0]
              && frame[56..58] == [if to.V4? then 4 else if to.V6? then 6 else 3, 0]
    ensures !to.Name? && |payload| <= MAX_PAYLOAD ==>
              var frame := InboundFrame(mac, key, generation, keyId, association, sequence, to, port, payload);
              && |frame| == 112 + |payload| && frame[..8] == [70, 67, 88, 68, 1, 2, 0, 0]
              && frame[56..58] == [if IsV4(to) then 4 else 6, 0]
  {
    if Sendable(to, payload, port) {
      var f := OutboundFields(generation, keyId, association, sequence, to, port, payload);
      SignedParts(mac, key, f, Body(to, payload));
      StartsExactly(f, OutboundFrame(mac, key, generation, keyId, association, sequence, to, port, payload));
    }
    if !to.Name? && |payload| <= MAX_PAYLOAD {
      var f := InboundFields(generation, keyId, association, sequence, Unmapped(to), port, payload);
      UnmappedExactly(to);
      SignedParts(mac, key, f, payload);
      StartsExactly(f, InboundFrame(mac, key, generation, keyId, association, sequence, to, port, payload));
    }
  }

  lemma StartsExactly(f: Fields, frame: seq<Byte>)
    requires |frame| >= 80 && Framed(frame) && Read(frame) == f
    ensures frame[..8] == [70, 67, 88, 68, f.version, f.kind, 0, 0] && frame[56..58] == [f.family, 0]
  {
    assert frame[..8] == frame[..4] + [frame[4], frame[5], frame[6], frame[7]];
    assert frame[56..58] == [frame[56], frame[57]];
  }

  // ----- Nothing else gets through -------------------------------------------

  lemma NameParsed(f: Fields, body: seq<Byte>) returns (name: Host)
    requires ParseName(f, body).Some?
    ensures var (to, payload) := ParseName(f, body).value;
            && to == Name(Lower(name)) && ValidName(to.name) && body == [|name|] + name + payload
            && f.family == DOMAIN && f.address == Zeros(16) && Sendable(to, payload, f.port)
  {
    name := body[1..1 + body[0]];
    LowerKeepsNames(name);
  }

  /** The bytes under the tag of a name frame. */
  function NameMessage(service: Service, d: Datagram, name: Host): seq<Byte>
    requires Sendable(d.to, d.payload, d.port) && |name| <= MAX_NAME
  {
    Header(OutboundFields(service.generation, d.keyId, d.association, d.sequence, d.to, d.port, d.payload)) + ([|name|] + name + d.payload)
  }

  /** A frame the Core takes for a name carries that name in some spelling, and the tag
      of its key over every byte. */
  lemma NameFramesAreSigned(service: Service, frame: seq<Byte>) returns (name: Host)
    requires ParseOutbound(service, frame).Some? && ParseOutbound(service, frame).value.to.Name?
    ensures
      var d := ParseOutbound(service, frame).value;
      && service.darwin && d.keyId in service.credentials && Sendable(d.to, d.payload, d.port) && ValidName(d.to.name)
      && d.to == Name(Lower(name))
      && frame == Signed(service.mac, service.credentials[d.keyId], NameMessage(service, d, name))
  {
    var d := ParseOutbound(service, frame).value;
    var f, body := Read(frame), frame[HEADER_BYTES..|frame| - TAG_BYTES];
    ParsedAsName(service, frame);
    name := NameParsed(f, body);
    WrittenRead(frame);
    FrameSplits(frame);
    assert f == OutboundFields(service.generation, d.keyId, d.association, d.sequence, d.to, d.port, d.payload);
  }

  lemma ParsedAsName(service: Service, frame: seq<Byte>)
    requires ParseOutbound(service, frame).Some? && ParseOutbound(service, frame).value.to.Name?
    ensures IsDomainFrame(service, frame) && HeaderAccepted(service, frame) && Authentic(service, frame) && Framed(frame)
    ensures
      var d, f, body := ParseOutbound(service, frame).value, Read(frame), frame[HEADER_BYTES..|frame| - TAG_BYTES];
      && ParseName(f, body) == Some((d.to, d.payload))
      && d.keyId == f.keyId && d.association == f.association && d.sequence == f.sequence && d.port == f.port
  {
  }

  /** An answer the Mac endpoint takes is, byte for byte, the frame of that answer under
      its own key, generation and association. */
  lemma OnlyOneAnswer(endpoint: Endpoint, frame: seq<Byte>)
    requires Genuine(endpoint, frame) && Decode(frame).Some?
    ensures
      var r := Decode(frame).value;
      && !r.from.Name? && r.port > 0 && 0 < |r.payload| <= 16384
      && frame == Signed(endpoint.mac, endpoint.key,
                         Header(InboundFields(endpoint.generation, endpoint.keyId, endpoint.association, Read(frame).sequence,
                                              r.from, r.port, r.payload)) + r.payload)
  {
    var r := Decode(frame).value;
    WrittenRead(frame);
    FrameSplits(frame);
    var f := Read(frame);
    if f.family == IPV4 { assert f.address == frame[60..64] + frame[64..76]; }
    assert f == InboundFields(endpoint.generation, endpoint.keyId, endpoint.association, f.sequence, r.from, r.port, r.payload);
  }
}
