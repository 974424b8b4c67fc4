/** The UDP data frame: an 80-byte header, the payload and a 32-byte tag, written by
    the Mac endpoint's Swift and read by the Core's Go, and the other way round. */
module UdpFrame {
  import opened Wrappers
  import opened Words
  import opened Bytes
  import opened DomainNames

  const HEADER_BYTES: nat := 80
  const TAG_BYTES: nat := 32
  const MAX_PAYLOAD: nat := 16384
  const MAX_FRAME: nat := HEADER_BYTES + 1 + MAX_NAME + MAX_PAYLOAD + TAG_BYTES

  const MAGIC: seq<Byte> := [70, 67, 88, 68]
  const PLAIN: Byte := 1
  const WITH_DOMAIN: Byte := 2
  const OUTBOUND: Byte := 1
  const INBOUND: Byte := 2
  const IPV4: Byte := 4
  const IPV6: Byte := 6
  const DOMAIN: Byte := 3

  type Id = s: seq<Byte> | |s| == 16 witness Zeros(16)
  type Address4 = s: seq<Byte> | |s| == 4 witness Zeros(4)
  type Tag = s: seq<Byte> | |s| == TAG_BYTES witness Zeros(TAG_BYTES)
  type Key = seq<Byte>
  type Port = x: nat | x < 0x1_0000

  /** The message code: some function of the key and what it signs. */
  type Mac = (Key, seq<Byte>) -> Tag

  datatype Destination = V4(v4: Address4) | V6(v6: Id) | Name(name: Host)

  // ----- Layout --------------------------------------------------------------

  datatype Fields = Fields(
    version: Byte,
    kind: Byte,
    generation: Word,
    keyId: Id,
    association: Id,
    sequence: Word,
    family: Byte,
    port: Port,
    address: Id,
    length: Port)

  function Start(f: Fields): (r: seq<Byte>)
    ensures |r| == 16
  {
    MAGIC + [f.version, f.kind, 0, 0] + BigEndian(f.generation, 8)
  }

  function Middle(f: Fields): (r: seq<Byte>)
    ensures |r| == 40
  {
    f.keyId + f.association + BigEndian(f.sequence, 8)
  }

  function End(f: Fields): (r: seq<Byte>)
    ensures |r| == 24
  {
    [f.family, 0] + BigEndian(f.port, 2) + f.address + BigEndian(f.length, 2) + [0, 0]
  }

  function Header(f: Fields): (r: seq<Byte>)
    ensures |r| == HEADER_BYTES
  {
    Start(f) + Middle(f) + End(f)
  }

  function Signed(mac: Mac, key: Key, message: seq<Byte>): seq<Byte> {
    message + mac(key, message)
  }

  /** The bytes both readers insist on: the magic, and zeros where nothing is used. */
  predicate Framed(frame: seq<Byte>)
    requires |frame| >= HEADER_BYTES
  {
    && frame[..4] == MAGIC && frame[6] == 0 && frame[7] == 0 && frame[57] == 0 && frame[78] == 0 && frame[79] == 0
  }

  function Read(frame: seq<Byte>): Fields
    requires |frame| >= HEADER_BYTES
  {
    EightBytesAreAWord();
    BigEndianOfNumber(frame[8..16]);
    BigEndianOfNumber(frame[48..56]);
    BigEndianOfNumber(frame[58..60]);
    BigEndianOfNumber(frame[76..78]);
    Fields(frame[4], frame[5], Number(frame[8..16]), frame[16..32], frame[32..48], Number(frame[48..56]),
           frame[56], Number(frame[58..60]), frame[60..76], Number(frame[76..78]))
  }

  /** A piece between two others is where their lengths say. */
  lemma Between(whole: seq<Byte>, before: seq<Byte>, piece: seq<Byte>, after: seq<Byte>)
    requires whole == before + piece + after
    ensures whole[|before|..|before| + |piece|] == piece
  {
  }

  /** A slice of a slice. */
  lemma Inner(frame: seq<Byte>, from: nat, to: nat, i: nat, j: nat)
    requires from <= to <= |frame| && i <= j <= to - from
    ensures frame[from..to][i..j] == frame[from + i..from + j]
  {
    var inner, outer := frame[from..to][i..j], frame[from + i..from + j];
    assert |inner| == |outer|;
    assert forall k :: 0 <= k < |inner| ==> inner[k] == frame[from..to][i + k] == frame[from + i + k] == outer[k];
  }

  lemma ReadStart(f: Fields, frame: seq<Byte>)
    requires |frame| >= HEADER_BYTES && frame[..16] == Start(f)
    ensures frame[..4] == MAGIC && frame[4] == f.version && frame[5] == f.kind && frame[6] == 0 && frame[7] == 0
    ensures Number(frame[8..16]) == f.generation
  {
    EightBytesAreAWord();
    NumberOfBigEndian(f.generation, 8);
    var start := frame[..16];
    Between(start, [], MAGIC, [f.version, f.kind, 0, 0] + BigEndian(f.generation, 8));
    Between(start, MAGIC + [f.version, f.kind, 0, 0], BigEndian(f.generation, 8), []);
    assert frame[..4] == start[0..4];
    assert frame[4] == start[4] && frame[5] == start[5] && frame[6] == start[6] && frame[7] == start[7];
    assert frame[8..16] == start[8..16];
  }

  lemma ReadMiddle(f: Fields, frame: seq<Byte>)
    requires |frame| >= HEADER_BYTES && frame[16..56] == Middle(f)
    ensures frame[16..32] == f.keyId && frame[32..48] == f.association && Number(frame[48..56]) == f.sequence
  {
    EightBytesAreAWord();
    NumberOfBigEndian(f.sequence, 8);
    var sequence := BigEndian(f.sequence, 8);
    Between(frame[16..56], [], f.keyId, f.association + sequence);
    Between(frame[16..56], f.keyId, f.association, sequence);
    Between(frame[16..56], f.keyId + f.association, sequence, []);
    Inner(frame, 16, 56, 0, 16);
    Inner(frame, 16, 56, 16, 32);
    Inner(frame, 16, 56, 32, 40);
  }

  lemma ReadEnd(f: Fields, frame: seq<Byte>)
    requires |frame| >= HEADER_BYTES && frame[56..80] == End(f)
    ensures frame[56] == f.family && frame[57] == 0 && Number(frame[58..60]) == f.port
    ensures frame[60..76] == f.address && Number(frame[76..78]) == f.length && frame[78] == 0 && frame[79] == 0
  {
    EndSlices(f, frame, frame[56..80]);
    NumberOfBigEndian(f.port, 2);
    NumberOfBigEndian(f.length, 2);
  }

  lemma EndSlices(f: Fields, frame: seq<Byte>, end: seq<Byte>)
    requires |frame| >= HEADER_BYTES && end == frame[56..80] == End(f)
    ensures frame[56] == f.family && frame[57] == 0 && frame[58..60] == BigEndian(f.port, 2)
    ensures frame[60..76] == f.address && frame[76..78] == BigEndian(f.length, 2) && frame[78] == 0 && frame[79] == 0
  {
    EndHolds(f, end);
    assert end[0] == frame[56] && end[1] == frame[57] && end[22] == frame[78] && end[23] == frame[79];
    Inner(frame, 56, 80, 2, 4);
    Inner(frame, 56, 80, 4, 20);
    Inner(frame, 56, 80, 20, 22);
  }

  /** What is where within the last part of a header. */
  lemma EndHolds(f: Fields, end: seq<Byte>)
    requires end == End(f)
    ensures end[0] == f.family && end[1] == 0 && end[2..4] == BigEndian(f.port, 2) && end[4..20] == f.address
    ensures end[20..22] == BigEndian(f.length, 2) && end[22] == 0 && end[23] == 0
  {
    var port, length := BigEndian(f.port, 2), BigEndian(f.length, 2);
    EndPieces(f);
    Between(end, [f.family, 0], port, f.address + length + [0, 0]);
    Between(end, [f.family, 0] + port, f.address, length + [0, 0]);
    Between(end, [f.family, 0] + port + f.address, length, [0, 0]);
  }

  lemma EndPieces(f: Fields)
    ensures End(f) == [f.family, 0] + BigEndian(f.port, 2) + (f.address + BigEndian(f.length, 2) + [0, 0])
    ensures End(f) == [f.family, 0] + BigEndian(f.port, 2) + f.address + (BigEndian(f.length, 2) + [0, 0])
  {
  }

  /** Reading gives back what was written. */
  lemma ReadWritten(f: Fields, rest: seq<Byte>)
    ensures Framed(Header(f) + rest) && Read(Header(f) + rest) == f
  {
    var frame := Header(f) + rest;
    assert frame[..16] == Start(f);
    assert frame[16..56] == Middle(f);
    assert frame[56..80] == End(f);
    ReadStart(f, frame);
    ReadMiddle(f, frame);
    ReadEnd(f, frame);
  }

  /** Writing gives back what was read: a frame has only one reading. */
  lemma WrittenRead(frame: seq<Byte>)
    requires |frame| >= HEADER_BYTES && Framed(frame)
    ensures Header(Read(frame)) == frame[..HEADER_BYTES]
  {
    BigEndianOfNumber(frame[8..16]);
    BigEndianOfNumber(frame[48..56]);
    BigEndianOfNumber(frame[58..60]);
    BigEndianOfNumber(frame[76..78]);
    WrittenStart(frame);
    WrittenMiddle(frame);
    WrittenEnd(frame);
  }

  lemma WrittenStart(frame: seq<Byte>)
    requires |frame| >= HEADER_BYTES && Framed(frame)
    ensures Start(Read(frame)) == frame[..16]
  {
    BigEndianOfNumber(frame[8..16]);
    assert frame[..16] == frame[..4] + frame[4..8] + frame[8..16];
    assert frame[4..8] == [frame[4], frame[5], 0, 0];
  }

  lemma WrittenMiddle(frame: seq<Byte>)
    requires |frame| >= HEADER_BYTES
    ensures Middle(Read(frame)) == frame[16..56]
  {
    BigEndianOfNumber(frame[48..56]);
    assert frame[16..56] == frame[16..32] + frame[32..48] + frame[48..56];
  }

  lemma WrittenEnd(frame: seq<Byte>)
    requires |frame| >= HEADER_BYTES && Framed(frame)
    ensures End(Read(frame)) == frame[56..80]
  {
    BigEndianOfNumber(frame[58..60]);
    BigEndianOfNumber(frame[76..78]);
    assert frame[56..80] == [frame[56], frame[57]] + frame[58..60] + frame[60..76] + frame[76..78] + [frame[78], frame[79]];
  }

  // ----- Swift to Go ---------------------------------------------------------

  function Family(to: Destination): Byte {
    match to
    case V4(_) => IPV4
    case V6(_) => IPV6
    case Name(_) => DOMAIN
  }

  function AddressField(to: Destination): Id {
    match to
    case V4(a) => a + Zeros(12)
    case V6(a) => a
    case Name(_) => Zeros(16)
  }

  /** A name travels in front of the payload, after its length. */
  function Body(to: Destination, payload: seq<Byte>): seq<Byte>
    requires to.Name? ==> |to.name| <= MAX_NAME
  {
    if to.Name? then [|to.name|] + Lower(to.name) + payload else payload
  }

  predicate Sendable(to: Destination, payload: seq<Byte>, port: Port) {
    0 < |payload| <= MAX_PAYLOAD && port > 0 && (to.Name? ==> |to.name| <= MAX_NAME)
  }

  function OutboundFields(generation: Word, keyId: Id, association: Id, sequence: Word, to: Destination, port: Port, payload: seq<Byte>): Fields
    requires Sendable(to, payload, port)
  {
    Fields(if to.Name? then WITH_DOMAIN else PLAIN, OUTBOUND, generation, keyId, association, sequence,
           Family(to), port, AddressField(to), |Body(to, payload)|)
  }

  function OutboundFrame(mac: Mac, key: Key, generation: Word, keyId: Id, association: Id, sequence: Word,
                         to: Destination, port: Port, payload: seq<Byte>): seq<Byte>
    requires Sendable(to, payload, port)
  {
    Signed(mac, key, Header(OutboundFields(generation, keyId, association, sequence, to, port, payload)) + Body(to, payload))
  }

  /** What the Core needs to know to read a frame; `safe4` and `safe6` say which
      addresses it forwards to. */
  datatype Service = Service(
    darwin: bool,
    generation: Word,
    credentials: map<Id, Key>,
    mac: Mac,
    safe4: Address4 -> bool,
    safe6: Id -> bool)

  datatype Datagram = Datagram(keyId: Id, association: Id, sequence: Word, to: Destination, port: Port, payload: seq<Byte>)

  /** An IPv4 address in IPv6 clothing. */
  predicate Is4In6(a: Id) {
    a[..10] == Zeros(10) && a[10] == 255 && a[11] == 255
  }

  predicate SafeAddress(service: Service, to: Destination)
    requires !to.Name?
  {
    match to
    case V4(a) => service.safe4(a)
    case V6(a) => !Is4In6(a) && service.safe6(a)
  }

  function ParseAddress(service: Service, f: Fields): Option<Destination> {
    if f.port == 0 then None
    else if f.family == IPV4 then
      if f.address[4..] != Zeros(12) then None
      else if service.safe4(f.address[..4]) then Some(V4(f.address[..4])) else None
    else if f.family == IPV6 then
      if Is4In6(f.address) then None
      else if service.safe6(f.address) then Some(V6(f.address)) else None
    else None
  }

  /** The name in front of a domain frame's payload, and where the payload starts. */
  ghost function ParseName(f: Fields, body: seq<Byte>): Option<(Destination, seq<Byte>)> {
    if f.family != DOMAIN || f.port == 0 || |body| < 3 || f.address != Zeros(16) then None
    else
      var length := body[0];
      if length == 0 || length > MAX_NAME || length + 1 >= |body| then None
      else if !ValidName(body[1..1 + length]) then None
      else if |body| - 1 - length > MAX_PAYLOAD then None
      else Some((Name(Lower(body[1..1 + length])), body[1 + length..]))
  }

  predicate IsDomainFrame(service: Service, frame: seq<Byte>)
    requires |frame| >= HEADER_BYTES
  {
    service.darwin && frame[4] == WITH_DOMAIN
  }

  predicate HeaderAccepted(service: Service, frame: seq<Byte>)
    requires |frame| >= HEADER_BYTES
  {
    var f := Read(frame);
    var most := if IsDomainFrame(service, frame) then MAX_PAYLOAD + 1 + MAX_NAME else MAX_PAYLOAD;
    && (IsDomainFrame(service, frame) || f.version == PLAIN)
    && f.kind == OUTBOUND && f.generation == service.generation
    && 0 < f.length <= most && |frame| == HEADER_BYTES + f.length + TAG_BYTES
  }

  predicate Authentic(service: Service, frame: seq<Byte>)
    requires |frame| >= HEADER_BYTES + TAG_BYTES
  {
    var keyId := frame[16..32];
    var cut := |frame| - TAG_BYTES;
    keyId in service.credentials && frame[cut..] == service.mac(service.credentials[keyId], frame[..cut])
  }

  /** Everything the Core decides about a frame before it looks at associations. */
  ghost function ParseOutbound(service: Service, frame: seq<Byte>): Option<Datagram> {
    if !(HEADER_BYTES + TAG_BYTES <= |frame| <= MAX_FRAME && Framed(frame)) then None
    else
      var f := Read(frame);
      var body := frame[HEADER_BYTES..|frame| - TAG_BYTES];
      if !HeaderAccepted(service, frame) || !Authentic(service, frame) then None
      else if f.association == Zeros(16) || f.sequence == 0 then None
      else if IsDomainFrame(service, frame) then
        match ParseName(f, body)
        case Some((to, payload)) => Some(Datagram(f.keyId, f.association, f.sequence, to, f.port, payload))
        case None => None
      else
        match ParseAddress(service, f)
        case Some(to) => Some(Datagram(f.keyId, f.association, f.sequence, to, f.port, body))
        case None => None
  }

  /** What the Core is meant to take. */
  ghost predicate Deliverable(service: Service, to: Destination) {
    if to.Name? then service.darwin && ValidName(to.name) else SafeAddress(service, to)
  }

  function Delivered(to: Destination): Destination {
    if to.Name? then Name(Lower(to.name)) else to
  }

  lemma SignedParts(mac: Mac, key: Key, f: Fields, body: seq<Byte>)
    ensures
      var frame := Signed(mac, key, Header(f) + body);
      && |frame| == HEADER_BYTES + |body| + TAG_BYTES
      && Framed(frame) && Read(frame) == f
      && frame[HEADER_BYTES..|frame| - TAG_BYTES] == body
      && frame[16..32] == f.keyId
      && frame[|frame| - TAG_BYTES..] == mac(key, frame[..|frame| - TAG_BYTES])
  {
    var message := Header(f) + body;
    var frame := Signed(mac, key, message);
    assert frame == Header(f) + (body + mac(key, message));
    ReadWritten(f, body + mac(key, message));
    assert frame[..|frame| - TAG_BYTES] == message;
    assert frame[16..32] == Read(frame).keyId;
  }

  lemma AddressRoundTrip(service: Service, to: Destination, f: Fields)
    requires !to.Name? && f.port > 0 && f.family == Family(to) && f.address == AddressField(to)
    ensures ParseAddress(service, f) == (if SafeAddress(service, to) then Some(to) else None)
  {
    match to
    case V4(a) =>
      assert f.address[..4] == a;
      assert f.address[4..] == Zeros(12);
    case V6(a) =>
  }

  lemma NameRoundTrip(to: Destination, f: Fields, payload: seq<Byte>)
    requires to.Name? && Sendable(to, payload, f.port) && ValidName(to.name)
    requires f.family == DOMAIN && f.address == Zeros(16)
    ensures ParseName(f, Body(to, payload)) == Some((Name(Lower(to.name)), payload))
  {
    var body := Body(to, payload);
    LowerKeepsNames(to.name);
    assert body[1..1 + |to.name|] == Lower(to.name);
    assert body[1 + |to.name|..] == payload;
  }

  /** A name of a frame that Swift sent has passed its validator, so the Core takes
      the frame exactly when it forwards to the destination at all, and then sees
      the same lower-cased name or address, port and payload. */
  lemma OutboundRoundTrip(service: Service, key: Key, keyId: Id, association: Id, sequence: Word, to: Destination, port: Port, payload: seq<Byte>)
    requires Sendable(to, payload, port) && sequence > 0
    requires to.Name? ==> ValidName(to.name)
    requires keyId in service.credentials && service.credentials[keyId] == key
    ensures
      var frame := OutboundFrame(service.mac, key, service.generation, keyId, association, sequence, to, port, payload);
      ParseOutbound(service, frame) ==
        (if Deliverable(service, to) && association != Zeros(16)
         then Some(Datagram(keyId, association, sequence, Delivered(to), port, payload)) else None)
  {
    var f := OutboundFields(service.generation, keyId, association, sequence, to, port, payload);
    SignedParts(service.mac, key, f, Body(to, payload));
    if to.Name? {
      NameRoundTrip(to, f, payload);
    } else {
      AddressRoundTrip(service, to, f);
    }
  }

  lemma FrameSplits(frame: seq<Byte>)
    requires |frame| >= HEADER_BYTES + TAG_BYTES
    ensures frame[..|frame| - TAG_BYTES] == frame[..HEADER_BYTES] + frame[HEADER_BYTES..|frame| - TAG_BYTES]
    ensures frame == frame[..|frame| - TAG_BYTES] + frame[|frame| - TAG_BYTES..]
  {
  }

  lemma ParsedAddressField(service: Service, f: Fields)
    requires ParseAddress(service, f).Some?
    ensures var to := ParseAddress(service, f).value;
            !to.Name? && Family(to) == f.family && AddressField(to) == f.address && f.port > 0
  {
    if f.family == IPV4 {
      assert f.address == f.address[..4] + f.address[4..];
    }
  }

  /** A frame the Core takes for an address is, byte for byte, the frame the Mac
      endpoint builds for that datagram: nothing else parses to it. */
  lemma OnlyOneFrame(service: Service, frame: seq<Byte>)
    requires ParseOutbound(service, frame).Some? && !ParseOutbound(service, frame).value.to.Name?
    ensures
      var d := ParseOutbound(service, frame).value;
      && d.keyId in service.credentials && Sendable(d.to, d.payload, d.port)
      && frame == OutboundFrame(service.mac, service.credentials[d.keyId], service.generation, d.keyId, d.association,
                                d.sequence, d.to, d.port, d.payload)
  {
    var d := ParseOutbound(service, frame).value;
    WrittenRead(frame);
    FrameSplits(frame);
    ParsedAddressField(service, Read(frame));
    assert Read(frame) == OutboundFields(service.generation, d.keyId, d.association, d.sequence, d.to, d.port, d.payload);
  }

  // ----- Go to Swift ---------------------------------------------------------

  function Unmapped(to: Destination): (r: Destination)
    requires !to.Name?
    ensures !r.Name?
  {
    if to.V6? && Is4In6(to.v6) then V4(to.v6[12..]) else to
  }

  function InboundFields(generation: Word, keyId: Id, association: Id, sequence: Word, from: Destination, port: Port, payload: seq<Byte>): Fields
    requires !from.Name? && |payload| <= MAX_PAYLOAD
  {
    Fields(PLAIN, INBOUND, generation, keyId, association, sequence, Family(from), port, AddressField(from), |payload|)
  }

  predicate Answerable(service: Service, from: Destination, port: Port, payload: seq<Byte>) {
    !from.Name? && 0 < |payload| <= MAX_PAYLOAD && port != 0 && SafeAddress(service, Unmapped(from))
  }

  function InboundFrame(mac: Mac, key: Key, generation: Word, keyId: Id, association: Id, sequence: Word,
                        from: Destination, port: Port, payload: seq<Byte>): seq<Byte>
    requires !from.Name? && |payload| <= MAX_PAYLOAD
  {
    Signed(mac, key, Header(InboundFields(generation, keyId, association, sequence, Unmapped(from), port, payload)) + payload)
  }

  /** What the Mac endpoint expects: its own generation, key and association. */
  datatype Endpoint = Endpoint(generation: Word, keyId: Id, association: Id, key: Key, mac: Mac)

  /** The checks before the sequence number is spent. */
  predicate Genuine(endpoint: Endpoint, frame: seq<Byte>) {
    && HEADER_BYTES + TAG_BYTES < |frame| <= HEADER_BYTES + MAX_PAYLOAD + TAG_BYTES
    && frame[4] == PLAIN && frame[5] == INBOUND && Framed(frame)
    && Read(frame).generation == endpoint.generation
    && Read(frame).keyId == endpoint.keyId && Read(frame).association == endpoint.association
    && frame[|frame| - TAG_BYTES..] == endpoint.mac(endpoint.key, frame[..|frame| - TAG_BYTES])
    && Read(frame).length == |frame| - HEADER_BYTES - TAG_BYTES
  }

  datatype Received = Received(from: Destination, port: Port, payload: seq<Byte>)

  /** What comes out once the sequence number was accepted. */
  function Decode(frame: seq<Byte>): Option<Received>
    requires |frame| >= HEADER_BYTES + TAG_BYTES
  {
    var f := Read(frame);
    if f.family != IPV4 && f.family != IPV6 then None
    else if f.family == IPV4 && frame[64..76] != Zeros(12) then None
    else if f.port == 0 then None
    else Some(Received(if f.family == IPV4 then V4(frame[60..64]) else V6(frame[60..76]), f.port,
                       frame[HEADER_BYTES..|frame| - TAG_BYTES]))
  }

  /** Every answer the Core frames is genuine to the endpoint it is for and decodes
      to the same source, port and payload. */
  lemma InboundRoundTrip(service: Service, endpoint: Endpoint, sequence: Word, from: Destination, port: Port, payload: seq<Byte>)
    requires Answerable(service, from, port, payload)
    ensures
      var frame := InboundFrame(endpoint.mac, endpoint.key, endpoint.generation, endpoint.keyId, endpoint.association,
                                sequence, from, port, payload);
      && Genuine(endpoint, frame) && Read(frame).sequence == sequence
      && Decode(frame) == Some(Received(Unmapped(from), port, payload))
  {
    var f := InboundFields(endpoint.generation, endpoint.keyId, endpoint.association, sequence, Unmapped(from), port, payload);
    var frame := InboundFrame(endpoint.mac, endpoint.key, endpoint.generation, endpoint.keyId, endpoint.association,
                              sequence, from, port, payload);
    SignedParts(endpoint.mac, endpoint.key, f, payload);
    assert frame[60..76] == AddressField(Unmapped(from));
    assert frame[60..64] == frame[60..76][..4];
    assert frame[64..76] == frame[60..76][4..];
  }

  /** Even under one shared key a frame the Mac endpoint builds is never genuine to any
      endpoint, and an answer the Core builds never parses at any service. */
  lemma DirectionsDiffer(mac: Mac, key: Key, generation: Word, keyId: Id, association: Id, sequence: Word, to: Destination,
                         port: Port, payload: seq<Byte>, service: Service, endpoint: Endpoint)
    ensures Sendable(to, payload, port) ==>
              !Genuine(endpoint, OutboundFrame(mac, key, generation, keyId, association, sequence, to, port, payload))
    ensures !to.Name? && |payload| <= MAX_PAYLOAD ==>
              ParseOutbound(service, InboundFrame(mac, key, generation, keyId, association, sequence, to, port, payload)).None?
  {
    if Sendable(to, payload, port) {
      SignedParts(mac, key, OutboundFields(generation, keyId, association, sequence, to, port, payload), Body(to, payload));
    }
    if !to.Name? && |payload| <= MAX_PAYLOAD {
      SignedParts(mac, key, InboundFields(generation, keyId, association, sequence, Unmapped(to), port, payload), payload);
    }
  }

  /** The one family of frames that is lost: those of an association whose random
      identifier is all zeros, although any other identifier gets the datagram through. */
  lemma ZeroAssociationIsLost(service: Service, key: Key, keyId: Id, association: Id, sequence: Word, to: Destination, port: Port,
                              payload: seq<Byte>)
    requires Sendable(to, payload, port) && sequence > 0 && Deliverable(service, to)
    requires keyId in service.credentials && service.credentials[keyId] == key && association != Zeros(16)
    ensures ParseOutbound(service, OutboundFrame(service.mac, key, service.generation, keyId, association, sequence, to, port, payload)).Some?
    ensures ParseOutbound(service, OutboundFrame(service.mac, key, service.generation, keyId, Zeros(16), sequence, to, port, payload)).None?
  {
    OutboundRoundTrip(service, key, keyId, association, sequence, to, port, payload);
    OutboundRoundTrip(service, key, keyId, Zeros(16), sequence, to, port, payload);
  }
}
