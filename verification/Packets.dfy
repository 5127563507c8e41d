/** The wire format: crates/fmtp-core/src/packet.rs and message.rs.

    A packet is a five byte header (version 2, reserved 0, big-endian total length, type) and its payload.
    The header's length field is always `5 + |data|`, so `Packet` does not store it. */
module Packets {
  import opened Prelude
  import opened Configuration

  const HEADER: nat := 5
  const MAX_PAYLOAD: nat := 10240   // bound checked by `new`
  const MAX_LENGTH: nat := 10240    // bound checked by `from_bytes`, on the length with the header
  const MAX_DELIVERABLE: nat := MAX_LENGTH - HEADER

  const DASH: byte := 45
  const ACCEPT: seq<byte> := [65, 67, 67, 69, 80, 84]
  const REJECT: seq<byte> := [82, 69, 74, 69, 67, 84]
  const SHUTDOWN: seq<byte> := [48, 48]
  const STARTUP: seq<byte> := [48, 49]
  const HEARTBEAT: seq<byte> := [48, 51]

  datatype PacketType = Operational | Operator | Identification | System

  datatype Packet = Packet(typ: PacketType, data: seq<byte>)

  datatype Message = OperationalMsg(data: seq<byte>) | OperatorMsg(data: seq<byte>)

  datatype Fault = PayloadTooLong | NotAMessage | UnexpectedSystemPayload | Undecodable

  function TypeCode(typ: PacketType): byte {
    match typ
    case Operational => 1
    case Operator => 2
    case Identification => 3
    case System => 4
  }

  function TypeOf(code: byte): (r: Option<PacketType>)
    ensures r.Some? <==> 1 <= code <= 4
    ensures r.Some? ==> TypeCode(r.value) == code
  {
    if code == 1 then Some(Operational)
    else if code == 2 then Some(Operator)
    else if code == 3 then Some(Identification)
    else if code == 4 then Some(System)
    else None
  }

  /** An empty payload is accepted, whatever the original's doc comment says. */
  function New(typ: PacketType, data: seq<byte>): (r: Result<Packet, Fault>)
    ensures r.Ok? <==> |data| <= 10240
    ensures r.Ok? ==> r.value == Packet(typ, data)
  {
    if |data| > MAX_PAYLOAD then Err(PayloadTooLong) else Ok(Packet(typ, data))
  }

  function HeaderBytes(length: nat, typ: PacketType): seq<byte>
    requires length < 0x1_0000
  {
    [2, 0, (length / 256) as byte, (length % 256) as byte, TypeCode(typ)]
  }

  /** The bytes of a packet that `New` can build. */
  function Encode(p: Packet): seq<byte>
    requires |p.data| <= MAX_PAYLOAD
  {
    HeaderBytes(HEADER + |p.data|, p.typ) + p.data
  }

  /** The format of a packet: version 2, a zero, the length of the whole in two bytes with the higher one first,
      the type from 1 for operational messages to 4 for system packets, and the payload. */
  predicate HasFormat(bytes: seq<byte>, p: Packet) {
    && |bytes| == 5 + |p.data|
    && bytes[0] == 2 && bytes[1] == 0
    && bytes[2] as nat * 256 + bytes[3] as nat == 5 + |p.data|
    && bytes[4] == (match p.typ
                    case Operational => 1
                    case Operator => 2
                    case Identification => 3
                    case System => 4)
    && bytes[5..] == p.data
  }

  method IntoBytes(p: Packet) returns (bytes: seq<byte>)
    requires |p.data| <= MAX_PAYLOAD
    ensures bytes == Encode(p)
    ensures HasFormat(bytes, p)
  {
    bytes := HeaderBytes(HEADER + |p.data|, p.typ);
    bytes := bytes + p.data;
  }

  /** `Panics` stands for the out-of-range slice: a length field below the header size, or more payload
      announced than there are bytes. */
  datatype Parsed = Parsed(packet: Packet) | Malformed | TooLong | Panics

  function DeclaredLength(bytes: seq<byte>): nat
    requires |bytes| >= HEADER
  {
    bytes[2] as nat * 256 + bytes[3] as nat
  }

  predicate HeaderOk(bytes: seq<byte>) {
    |bytes| >= HEADER && bytes[0] == 2 && bytes[1] == 0 && TypeOf(bytes[4]).Some?
  }

  function FromBytes(bytes: seq<byte>): Parsed {
    if !HeaderOk(bytes) then Malformed
    else
      var length := DeclaredLength(bytes);
      if length > MAX_LENGTH then TooLong
      else if length < HEADER || |bytes| < length then Panics
      else Parsed(Packet(TypeOf(bytes[4]).value, bytes[HEADER..length]))
  }

  function PacketOf(msg: Message): Packet {
    match msg
    case OperationalMsg(data) => Packet(Operational, data)
    case OperatorMsg(data) => Packet(Operator, data)
  }

  /** `from_msg` unwraps `new`, so its caller owes it the size bound. */
  function FromMsg(msg: Message): (p: Packet)
    requires |msg.data| <= MAX_PAYLOAD
    ensures TryToMsg(p) == Ok(msg)
  {
    match msg
    case OperationalMsg(data) => New(Operational, data).value
    case OperatorMsg(data) => New(Operator, data).value
  }

  function TryToMsg(p: Packet): (r: Result<Message, Fault>)
    ensures r.Ok? <==> p.typ.Operational? || p.typ.Operator?
    ensures r.Ok? ==> PacketOf(r.value) == p
  {
    match p.typ
    case Operational => Ok(OperationalMsg(p.data))
    case Operator => Ok(OperatorMsg(p.data))
    case _ => Err(NotAMessage)
  }

  function HandshakePayload(localId: Identifier, remoteId: Identifier): seq<byte> {
    localId + [DASH] + remoteId
  }

  function HandshakePacket(localId: Identifier, remoteId: Identifier): Packet {
    Packet(Identification, HandshakePayload(localId, remoteId))
  }

  /** Builds the payload by pushing; the `unwrap` of `new` cannot fail. */
  method Handshake(localId: Identifier, remoteId: Identifier) returns (p: Packet)
    ensures p == HandshakePacket(localId, remoteId)
    ensures New(Identification, p.data) == Ok(p)
  {
    var payload: seq<byte> := localId;
    payload := payload + [DASH];
    payload := payload + remoteId;
    p := New(Identification, payload).value;
  }

  const ACCEPT_PACKET := Packet(Identification, ACCEPT)
  const REJECT_PACKET := Packet(Identification, REJECT)
  const STARTUP_PACKET := Packet(System, STARTUP)
  const SHUTDOWN_PACKET := Packet(System, SHUTDOWN)
  const HEARTBEAT_PACKET := Packet(System, HEARTBEAT)

  predicate IsAccept(p: Packet) { p.typ.Identification? && p.data == ACCEPT }
  predicate IsReject(p: Packet) { p.typ.Identification? && p.data == REJECT }
  predicate IsStartup(p: Packet) { p.typ.System? && p.data == STARTUP }
  predicate IsShutdown(p: Packet) { p.typ.System? && p.data == SHUTDOWN }
  predicate IsHeartbeat(p: Packet) { p.typ.System? && p.data == HEARTBEAT }
  predicate IsData(p: Packet) { p.typ.Operational? || p.typ.Operator? }

  /** The payload a configuration expects from its peer. */
  function Expected(c: ConnectionConfig): seq<byte> {
    HandshakePayload(c.remoteId, c.localId)
  }

  /** `check_handshake`'s comparison. */
  predicate Answers(p: Packet, c: ConnectionConfig) {
    p.typ.Identification? && p.data == Expected(c)
  }

  /** The first key of the iteration order whose configuration the packet answers. */
  function FirstAnswered(p: Packet, connections: map<string, ConnectionConfig>, order: seq<string>): (r: Option<string>)
    ensures r.Some? ==> r.value in order && r.value in connections && Answers(p, connections[r.value])
    ensures r.None? ==> forall k :: k in order && k in connections ==> !Answers(p, connections[k])
  {
    if order == [] then None
    else if order[0] in connections && Answers(p, connections[order[0]]) then Some(order[0])
    else FirstAnswered(p, connections, order[1..])
  }

  /** A connection that already knows its configured id checks that entry only; any other searches. */
  function HandshakeId(p: Packet, config: Config, id: Option<string>, order: seq<string>): Option<string> {
    if id.Some? && id.value in config.connections then
      if Answers(p, config.connections[id.value]) then id else None
    else FirstAnswered(p, config.connections, order)
  }

  /** The comparison closure of `check_handshake`, which rebuilds the expected payload by pushing. */
  method CheckEntry(p: Packet, c: ConnectionConfig) returns (r: bool)
    ensures r <==> Answers(p, c)
  {
    var data: seq<byte> := c.remoteId;
    data := data + [DASH];
    data := data + c.localId;
    r := p.typ.Identification? && p.data == data;
  }

  method CheckHandshake(p: Packet, config: Config, id: Option<string>, order: seq<string>) returns (r: Option<string>)
    requires Enumerates(order, config.connections)
    ensures r == HandshakeId(p, config, id, order)
    ensures r.Some? ==> r.value in config.connections && Answers(p, config.connections[r.value])
    ensures r.None? && (id.None? || id.value !in config.connections) ==>
              forall k :: k in config.connections ==> !Answers(p, config.connections[k])
  {
    if id.Some? && id.value in config.connections {
      var matches := CheckEntry(p, config.connections[id.value]);
      return if matches then id else None;
    }
    for i := 0 to |order|
      invariant FirstAnswered(p, config.connections, order) == FirstAnswered(p, config.connections, order[i..])
    {
      var matches := CheckEntry(p, config.connections[order[i]]);
      assert order[i..][1..] == order[i + 1..];
      if matches {
        return Some(order[i]);
      }
    }
    return None;
  }
}
