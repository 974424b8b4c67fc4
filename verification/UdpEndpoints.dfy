/** The two ends as programs: the Core's UDP service changing its association table
    in place, and the Mac endpoint filling and checking frame buffers. */
module UdpEndpoints {
  import opened Wrappers
  import opened Words
  import opened Bytes
  import opened DomainNames
  import opened UdpFrame
  import opened ReplayWindow
  import opened UdpAssociations

  /** The Core's reading of a frame, check by check. */
  method ParseFrame(service: Service, frame: seq<Byte>, parsesAsAddress: Host -> bool) returns (datagram: Option<Datagram>)
    requires ParsesAddresses(parsesAsAddress)
    ensures datagram == ParseOutbound(service, frame)
  {
    if |frame| < HEADER_BYTES + TAG_BYTES || |frame| > MAX_FRAME || !Framed(frame) {
      return None;
    }
    var domainFrame := IsDomainFrame(service, frame);
    var f := Read(frame);
    if (!domainFrame && f.version != PLAIN) || f.kind != OUTBOUND || f.generation != service.generation {
      return None;
    }
    var most := MAX_PAYLOAD;
    if domainFrame {
      most := most + 1 + MAX_NAME;
    }
    if f.length == 0 || f.length > most || |frame| != HEADER_BYTES + f.length + TAG_BYTES {
      return None;
    }
    if !Authentic(service, frame) {
      return None;
    }
    if f.association == Zeros(16) || f.sequence == 0 {
      return None;
    }
    var body := frame[HEADER_BYTES..|frame| - TAG_BYTES];
    if domainFrame {
      var parsed := ParseNameFrame(f, body, parsesAsAddress);
      if parsed.None? {
        return None;
      }
      datagram := Some(Datagram(f.keyId, f.association, f.sequence, parsed.value.0, f.port, parsed.value.1));
    } else {
      var to := ParseAddress(service, f);
      if to.None? {
        return None;
      }
      datagram := Some(Datagram(f.keyId, f.association, f.sequence, to.value, f.port, body));
    }
  }

  method ParseNameFrame(f: Fields, body: seq<Byte>, parsesAsAddress: Host -> bool) returns (parsed: Option<(Destination, seq<Byte>)>)
    requires ParsesAddresses(parsesAsAddress)
    ensures parsed == ParseName(f, body)
  {
    if f.family != DOMAIN || f.port == 0 || |body| < 3 {
      return None;
    }
    for index := 0 to 16
      invariant forall i :: 0 <= i < index ==> f.address[i] == 0
    {
      if f.address[index] != 0 {
        return None;
      }
    }
    assert f.address == Zeros(16);
    var length := body[0];
    if length == 0 || length > MAX_NAME || length + 1 >= |body| {
      return None;
    }
    var valid := ValidStrictUdpDomain(body[1..1 + length], parsesAsAddress);
    if !valid || |body| - 1 - length > MAX_PAYLOAD {
      return None;
    }
    parsed := Some((Name(Lower(body[1..1 + length])), body[1 + length..]));
  }

  /** `serial` tells an association from an earlier one of the same identifier. */
  datatype Entry = Entry(serial: nat, keyId: Id, source: Source, window: Window, lastSeen: int, nextResponse: Word, active: bool)

  class StrictUdpIngressService {
    const service: Service
    var associations: map<Id, Entry>
    var created: nat
    ghost var accepted: map<Id, set<Word>>

    ghost predicate Valid()
      reads this
    {
      && accepted.Keys == associations.Keys
      && forall id :: id in associations ==> Represents(associations[id].window, accepted[id])
    }

    predicate Live(id: Id, serial: nat)
      reads this
    {
      id in associations && associations[id].serial == serial && associations[id].active
    }

    ghost function Contents(): Table
      reads this
      requires Valid()
    {
      map id | id in associations ::
        Association(associations[id].keyId, associations[id].source, accepted[id], associations[id].lastSeen)
    }

    constructor (service: Service)
      ensures Valid() && Contents() == map[] && this.service == service
    {
      this.service := service;
      associations, created, accepted := map[], 0, map[];
    }

    method SweepAssociations(now: int)
      requires Valid()
      modifies this
      ensures Valid() && Contents() == Swept(old(Contents()), now)
    {
      var keep := map id | id in associations && associations[id].lastSeen >= now - IDLE :: associations[id];
      accepted := map id | id in keep :: accepted[id];
      associations := keep;
    }

    /** Makes room the way the Core does: by dropping idle associations when full. */
    method EnsureRoom(id: Id, now: int)
      requires Valid()
      modifies this
      ensures Valid() && Contents() == MakeRoom(old(Contents()), id, now)
      ensures |associations| == |Contents()|
    {
      SameSize();
      if id !in associations && |associations| >= MAX_ASSOCIATIONS {
        SweepAssociations(now);
        SameSize();
      }
    }

    method CreateAssociation(d: Datagram, source: Source)
      requires Valid() && d.association !in associations
      modifies this
      ensures Valid() && d.association in associations
      ensures Contents() == old(Contents())[d.association := Association(d.keyId, source, {}, 0)]
    {
      RunsRepresent([]);
      associations := associations[d.association := Entry(created, d.keyId, source, START, 0, 0, true)];
      accepted := accepted[d.association := {}];
      created := created + 1;
    }

    lemma SameSize()
      requires Valid()
      ensures |Contents()| == |associations|
    {
      assert Contents().Keys == associations.Keys;
      assert |Contents()| == |Contents().Keys| && |associations| == |associations.Keys|;
    }

    method HandleDataFrame(frame: seq<Byte>, source: Source, now: int, slot: bool, parsesAsAddress: Host -> bool)
      returns (delivered: Option<Datagram>)
      requires Valid() && ParsesAddresses(parsesAsAddress)
      modifies this
      ensures Valid()
      ensures (Contents(), delivered) == Handle(service, old(Contents()), frame, source, now, slot)
    {
      var parsed := ParseFrame(service, frame, parsesAsAddress);
      if parsed.None? {
        return None;
      }
      var d := parsed.value;
      var admitted := AdmitDatagram(d, source, now);
      if !admitted || !slot {
        return None;
      }
      delivered := Some(d);
    }

    method AdmitDatagram(d: Datagram, source: Source, now: int) returns (admitted: bool)
      requires Valid()
      modifies this
      ensures Valid()
      ensures (Contents(), admitted) == Admit(old(Contents()), d, source, now)
    {
      EnsureRoom(d.association, now);
      if d.association !in associations {
        if |associations| >= MAX_ASSOCIATIONS {
          return false;
        }
        CreateAssociation(d, source);
      }
      admitted := UseAssociation(d, source, now);
    }

    method UseAssociation(d: Datagram, source: Source, now: int) returns (admitted: bool)
      requires Valid() && d.association in associations
      modifies this
      ensures Valid()
      ensures (Contents(), admitted) == Use(old(Contents()), d, source, now)
    {
      if associations[d.association].keyId != d.keyId || associations[d.association].source != source {
        return false;
      }
      admitted := AcceptSequence(d.association, d.sequence, now);
    }

    method AcceptSequence(id: Id, sequence: Word, now: int) returns (fits: bool)
      requires Valid() && id in associations
      modifies this
      ensures Valid() && fits == Acceptable(old(Contents())[id].accepted, sequence)
      ensures Contents() ==
        (if fits
         then old(Contents())[id := old(Contents())[id].(accepted := old(Contents())[id].accepted + {sequence}, lastSeen := now)]
         else old(Contents()))
    {
      var entry := associations[id];
      StepsAgree(entry.window, accepted[id], sequence);
      var step := GoAccept(entry.window, sequence);
      fits := step.1;
      if fits {
        associations := associations[id := entry.(window := step.0, lastSeen := now)];
        accepted := accepted[id := accepted[id] + {sequence}];
      }
    }

    /** An answer on the association a delivered packet came from, if it and the service
        still live. Response numbers count up from 1; the one that would wrap closes the
        association. A number is spent and the frame handed to the socket whether or not
        the socket then takes the whole of it; only then does the association count as used. */
    method WriteBack(id: Id, serial: nat, payload: seq<Byte>, from: Destination, port: Port, now: int, closed: bool, written: bool)
      returns (framed: Option<seq<Byte>>, ok: bool)
      requires Valid() && !from.Name?
      requires forall i :: i in associations ==> associations[i].keyId in service.credentials
      modifies this
      ensures Valid() && associations.Keys == old(associations.Keys)
      ensures ok <==> framed.Some? && written
      ensures !closed && old(Live(id, serial)) && Answerable(service, from, port, payload) ==>
        var entry := old(associations)[id];
        if entry.nextResponse == MAX_WORD then framed.None? && associations[id] == entry.(nextResponse := 0, active := false)
        else
          && associations[id] == entry.(nextResponse := entry.nextResponse + 1, lastSeen := if written then now else entry.lastSeen)
          && framed == Some(InboundFrame(service.mac, service.credentials[entry.keyId], service.generation, entry.keyId, id,
                                         entry.nextResponse + 1, from, port, payload))
      ensures closed || !old(Live(id, serial)) || !Answerable(service, from, port, payload) ==>
        framed.None? && associations == old(associations)
      ensures forall i :: i in associations && i != id ==> associations[i] == old(associations)[i]
    {
      if payload == [] || |payload| > MAX_PAYLOAD {
        return None, false;
      }
      if closed || !Live(id, serial) {
        return None, false;
      }
      if port == 0 || !SafeAddress(service, Unmapped(from)) {
        return None, false;
      }
      var entry := associations[id];
      if entry.nextResponse == MAX_WORD {
        associations := associations[id := entry.(nextResponse := 0, active := false)];
        return None, false;
      }
      var sequence := entry.nextResponse + 1;
      entry := entry.(nextResponse := sequence);
      associations := associations[id := entry];
      var key := service.credentials[entry.keyId];
      framed := Some(InboundFrame(service.mac, key, service.generation, entry.keyId, id, sequence, from, port, payload));
      if !written {
        return framed, false;
      }
      associations := associations[id := entry.(lastSeen := now)];
      ok := true;
    }
  }

  /** What the system's address parser makes of a host: foreign, so a parameter. */
  datatype Literal = Literal4(v4: Address4) | Literal6(v6: Id) | NotLiteral

  function DestinationOf(literal: Literal, host: Host): Destination {
    match literal
    case Literal4(a) => V4(a)
    case Literal6(a) => V6(a)
    case NotLiteral => Name(host)
  }

  class StrictSocksConnection {
    const endpoint: Endpoint
    const sequences: SwiftSequences

    constructor (endpoint: Endpoint)
      ensures this.endpoint == endpoint && fresh(sequences)
      ensures sequences.Valid() && sequences.accepted == {} && sequences.outboundSequence == 0
    {
      this.endpoint := endpoint;
      sequences := new SwiftSequences();
    }

    /** Fills an 80-byte header in place. */
    method WriteHeader(frame: array<Byte>, f: Fields)
      requires frame.Length == HEADER_BYTES && forall i :: 0 <= i < HEADER_BYTES ==> frame[i] == 0
      modifies frame
      ensures frame[..] == Header(f)
    {
      WriteStart(frame, f);
      Copy(f.keyId, frame, 16);
      Copy(f.association, frame, 32);
      Put(f.sequence, frame, 48, 8);
      assert frame[16..56] == Middle(f) by {
        assert frame[16..56] == frame[16..32] + frame[32..48] + frame[48..56];
      }
      assert frame[..16] == Start(f);
      WriteEnd(frame, f);
      assert frame[..] == frame[..16] + frame[16..56] + frame[56..80];
    }

    method WriteStart(frame: array<Byte>, f: Fields)
      requires frame.Length == HEADER_BYTES && forall i :: 0 <= i < HEADER_BYTES ==> frame[i] == 0
      modifies frame
      ensures frame[..16] == Start(f) && forall i :: 16 <= i < HEADER_BYTES ==> frame[i] == 0
    {
      Copy(MAGIC, frame, 0);
      frame[4] := f.version;
      frame[5] := f.kind;
      Put(f.generation, frame, 8, 8);
      assert frame[..16] == frame[..4] + [frame[4], frame[5], frame[6], frame[7]] + frame[8..16];
    }

    method WritePort(frame: array<Byte>, f: Fields)
      requires frame.Length == HEADER_BYTES && frame[57] == 0
      modifies frame
      ensures frame[56..60] == [f.family, 0] + BigEndian(f.port, 2)
      ensures forall i :: 0 <= i < HEADER_BYTES && !(56 <= i < 60) ==> frame[i] == old(frame[i])
    {
      frame[56] := f.family;
      Put(f.port, frame, 58, 2);
      assert frame[56..60] == [frame[56], frame[57]] + frame[58..60];
    }

    method WriteEnd(frame: array<Byte>, f: Fields)
      requires frame.Length == HEADER_BYTES && forall i :: 56 <= i < HEADER_BYTES ==> frame[i] == 0
      modifies frame
      ensures frame[56..80] == End(f)
      ensures forall i :: 0 <= i < 56 ==> frame[i] == old(frame[i])
    {
      WritePort(frame, f);
      ghost var port := frame[56..60];
      Copy(f.address, frame, 60);
      assert frame[56..60] == port;
      assert frame[56..76] == port + f.address;
      ghost var upToAddress := frame[56..76];
      Put(f.length, frame, 76, 2);
      assert frame[56..76] == upToAddress;
      assert frame[56..80] == upToAddress + frame[76..78] + [frame[78], frame[79]];
    }

    /** Sends one datagram: a sequence number is spent only on what can be framed. */
    method SendDatagram(payload: seq<Byte>, host: Host, port: Port, literal: Literal) returns (sent: Option<seq<Byte>>)
      modifies sequences`outboundSequence
      ensures sent.Some? <==>
        && 0 < |payload| <= MAX_PAYLOAD && port > 0 && (literal.NotLiteral? ==> ValidName(host))
        && old(sequences.outboundSequence) < MAX_WORD
      ensures sent.Some? ==>
        && sequences.outboundSequence == old(sequences.outboundSequence) + 1
        && Sendable(DestinationOf(literal, host), payload, port)
        && sent.value == OutboundFrame(endpoint.mac, endpoint.key, endpoint.generation, endpoint.keyId, endpoint.association,
                                       sequences.outboundSequence, DestinationOf(literal, host), port, payload)
      ensures sent.None? ==> sequences.outboundSequence == old(sequences.outboundSequence)
    {
      if payload == [] || |payload| > MAX_PAYLOAD || port == 0 {
        return None;
      }
      var to := DestinationOf(literal, host);
      var body := payload;
      if literal.NotLiteral? {
        var name := UdpDomain(host);
        if name.None? {
          return None;
        }
        body := [|name.value|] + name.value + payload;
      }
      var sequence := sequences.NextUdpSequence();
      if sequence == 0 {
        return None;
      }
      var frame := new Byte[HEADER_BYTES](_ => 0);
      var version := if literal.NotLiteral? then WITH_DOMAIN else PLAIN;
      WriteHeader(frame, Fields(version, OUTBOUND, endpoint.generation, endpoint.keyId, endpoint.association, sequence,
                                Family(to), port, AddressField(to), |body|));
      sent := Some(Signed(endpoint.mac, endpoint.key, frame[..] + body));
    }

    /** Takes one frame off the relay. The sequence number is spent before the source
        address is looked at, so an authentic frame with a bad source uses it up. */
    method ReadDatagram(frame: seq<Byte>) returns (received: Option<Received>)
      requires sequences.Valid()
      modifies sequences`inboundHighest, sequences`inboundWindow, sequences`accepted
      ensures sequences.Valid()
      ensures received.Some? <==>
        Genuine(endpoint, frame) && Acceptable(old(sequences.accepted), Read(frame).sequence) && Decode(frame).Some?
      ensures received.Some? ==> received == Decode(frame)
      ensures sequences.accepted ==
        (if Genuine(endpoint, frame) && Acceptable(old(sequences.accepted), Read(frame).sequence)
         then old(sequences.accepted) + {Read(frame).sequence} else old(sequences.accepted))
    {
      if !Genuine(endpoint, frame) {
        return None;
      }
      var fits := sequences.AcceptUdpSequence(Read(frame).sequence);
      if !fits {
        return None;
      }
      received := Decode(frame);
    }
  }
}
