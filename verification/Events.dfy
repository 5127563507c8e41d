/** The events of the connection and the classifier of incoming packets: crates/fmtp-core/src/event.rs. */
module Events {
  import opened Prelude
  import opened Configuration
  import opened Packets
  import opened Codec

  datatype Event =
    | RSetup(now: nat)
    | RDisconnect
    | RReject
    | RAccept(now: nat)
    | RIdValid(now: nat, id: string)
    | RIdInvalid
    | RData(now: nat, msg: Message)
    | RHeartbeat(now: nat)
    | RShutdown(now: nat)
    | RStartup(now: nat)
    | TiTimeout
    | TrTimeout(now: nat)
    | TsTimeout(now: nat)
    | LData(now: nat, msg: Message)
    | LShutdown(now: nat)
    | LStartup(now: nat)
    | LSetup(id: string)
    | LDisconnect

  datatype UserCommand =
    | Setup(id: string)
    | Disconnect
    | Data(msg: Message)
    | Shutdown
    | Startup

  function EventTime(e: Event): Option<nat> {
    match e
    case RSetup(now) => Some(now)
    case RAccept(now) => Some(now)
    case RIdValid(now, _) => Some(now)
    case RData(now, _) => Some(now)
    case RHeartbeat(now) => Some(now)
    case RShutdown(now) => Some(now)
    case RStartup(now) => Some(now)
    case TrTimeout(now) => Some(now)
    case TsTimeout(now) => Some(now)
    case LData(now, _) => Some(now)
    case LShutdown(now) => Some(now)
    case LStartup(now) => Some(now)
    case _ => None
  }

  /** The events a packet can become. */
  predicate FromPeer(e: Event) {
    e.RReject? || e.RAccept? || e.RIdValid? || e.RIdInvalid? || e.RData? || e.RHeartbeat? || e.RShutdown? || e.RStartup?
  }

  /** `from_incoming_packet`; `received` is the number of bytes read, 0 at the end of the stream. */
  function FromIncomingPacket(received: nat, p: Packet, now: nat, config: Config, id: Option<string>, order: seq<string>)
    : Result<Event, Fault>
  {
    if received == 0 then Ok(RDisconnect)
    else match p.typ
      case Operational => Ok(RData(now, OperationalMsg(p.data)))
      case Operator => Ok(RData(now, OperatorMsg(p.data)))
      case Identification =>
        if IsAccept(p) then Ok(RAccept(now))
        else if IsReject(p) then Ok(RReject)
        else
          var found := HandshakeId(p, config, id, order);
          Ok(if found.Some? then RIdValid(now, found.value) else RIdInvalid)
      case System =>
        if IsStartup(p) then Ok(RStartup(now))
        else if IsShutdown(p) then Ok(RShutdown(now))
        else if IsHeartbeat(p) then Ok(RHeartbeat(now))
        else Err(UnexpectedSystemPayload)
  }

  /** The event `handle_remote_packet` dispatches for a read buffer, if any. */
  function WireEvent(bytes: seq<byte>, received: nat, now: nat, config: Config, id: Option<string>, order: seq<string>)
    : Result<Event, Fault>
  {
    match FromBytes(bytes)
    case Parsed(p) => FromIncomingPacket(received, p, now, config, id, order)
    case TooLong => Err(PayloadTooLong)
    case _ => Err(Undecodable)
  }

  /** The end of the stream is a disconnect if and only if what the buffer still holds can be parsed, for the
      buffer is parsed first. */
  lemma EndOfStreamNeedsReadableBuffer(
    bytes: seq<byte>, now: nat, config: Config, id: Option<string>, order: seq<string>)
    ensures WireEvent(bytes, 0, now, config, id, order) == Ok(RDisconnect) <==> FromBytes(bytes).Parsed?
  {
  }

  /** So it is after any packet that could be read, and it is an error before the first one, when the buffer
      is still filled with zeros. */
  lemma EndOfStreamBeforeAndAfterPackets(
    p: Packet, stale: seq<byte>, now: nat, config: Config, id: Option<string>, order: seq<string>)
    requires |p.data| <= MAX_DELIVERABLE
    ensures WireEvent(Encode(p) + stale, 0, now, config, id, order) == Ok(RDisconnect)
    ensures WireEvent(seq(MAX_LENGTH, _ => 0), 0, now, config, id, order) == Err(Undecodable)
  {
    RoundTrip(p, stale);
  }

  /** What a reader makes of one transmitted packet, stale buffer bytes and all: either the packet is too
      long to be read, or it is classified. */
  function PacketEvent(p: Packet, now: nat, config: Config, id: Option<string>, order: seq<string>)
    : Result<Event, Fault>
  {
    if |p.data| > MAX_DELIVERABLE then Err(PayloadTooLong)
    else FromIncomingPacket(1, p, now, config, id, order)
  }

  /** The abstract channels carry packets; this is why that loses nothing against the bytes. */
  lemma PacketEventIsWireEvent(
    p: Packet, stale: seq<byte>, now: nat, config: Config, id: Option<string>, order: seq<string>)
    requires |p.data| <= MAX_PAYLOAD
    ensures WireEvent(Encode(p) + stale, |Encode(p)|, now, config, id, order) == PacketEvent(p, now, config, id, order)
  {
    RoundTrip(p, stale);
  }

  /** An entry expects a packet from its peer. */
  predicate Expects(c: ConnectionConfig, p: Packet) {
    p.typ.Identification? && p.data == c.remoteId + [45] + c.localId
  }

  /** The entries that may name the peer: the connection's own once that is configured, else all of them. */
  predicate Consulted(config: Config, id: Option<string>, k: string) {
    k in config.connections && (id.Some? && id.value in config.connections ==> k == id.value)
  }

  /** What a packet means, by its type and its payload. Everything that can be read is in one of the classes,
      but for system packets of another payload. */
  lemma PacketsAreClassified(p: Packet, now: nat, config: Config, id: Option<string>, order: seq<string>)
    requires |p.data| <= 10235 && Enumerates(order, config.connections)
    ensures var r := PacketEvent(p, now, config, id, order);
            var verdict := p.data == [65, 67, 67, 69, 80, 84] || p.data == [82, 69, 74, 69, 67, 84];
            && (r == Ok(RAccept(now)) <==> p.typ.Identification? && p.data == [65, 67, 67, 69, 80, 84])
            && (r == Ok(RReject) <==> p.typ.Identification? && p.data == [82, 69, 74, 69, 67, 84])
            && (r == Ok(RIdInvalid) <==>
                p.typ.Identification? && !verdict
                && forall k :: Consulted(config, id, k) ==> !Expects(config.connections[k], p))
            && (r.Ok? && r.value.RIdValid? <==>
                p.typ.Identification? && !verdict
                && exists k :: Consulted(config, id, k) && Expects(config.connections[k], p))
            && (r.Ok? && r.value.RIdValid? ==>
                  && r.value.now == now && Consulted(config, id, r.value.id)
                  && Expects(config.connections[r.value.id], p))
            && (r == Ok(RStartup(now)) <==> p.typ.System? && p.data == [48, 49])
            && (r == Ok(RShutdown(now)) <==> p.typ.System? && p.data == [48, 48])
            && (r == Ok(RHeartbeat(now)) <==> p.typ.System? && p.data == [48, 51])
            && (r == Ok(RData(now, OperationalMsg(p.data))) <==> p.typ.Operational?)
            && (r == Ok(RData(now, OperatorMsg(p.data))) <==> p.typ.Operator?)
            && (r.Err? <==> p.typ.System? && p.data !in {[48, 49], [48, 48], [48, 51]})
  {
    assert forall k :: k in config.connections ==> k in order;
    var r := PacketEvent(p, now, config, id, order);
    if r.Ok? && r.value.RIdValid? {
      assert Consulted(config, id, r.value.id) && Expects(config.connections[r.value.id], p);
    }
    if p.typ.Identification? {
      forall k | Consulted(config, id, k) && Expects(config.connections[k], p)
        ensures r != Ok(RIdInvalid)
      {
        assert Answers(p, config.connections[k]);
      }
    }
  }

  /** Over bytes: only the eleven bytes of an ACCEPT are one, and only those of a REJECT. */
  lemma VerdictsOnTheWire(
    bytes: seq<byte>, received: nat, now: nat, config: Config, id: Option<string>, order: seq<string>)
    ensures WireEvent(bytes, received, now, config, id, order) == Ok(RAccept(now)) <==>
            received > 0 && [2, 0, 0, 11, 3, 65, 67, 67, 69, 80, 84] <= bytes
    ensures WireEvent(bytes, received, now, config, id, order) == Ok(RReject) <==>
            received > 0 && [2, 0, 0, 11, 3, 82, 69, 74, 69, 67, 84] <= bytes
  {
    FixedPacketsOnTheWire();
    ReadableBuffer(ACCEPT_PACKET, bytes);
    ReadableBuffer(REJECT_PACKET, bytes);
  }

  /** No packet is mistaken for data and no data packet for anything else. */
  lemma DataIsClassifiedAsItself(p: Packet, now: nat, config: Config, id: Option<string>, order: seq<string>)
    ensures var r := PacketEvent(p, now, config, id, order);
            && (r.Ok? ==> (r.value.RData? <==> IsData(p)))
            && (r.Ok? && IsData(p) ==> r.value == RData(now, TryToMsg(p).value))
            && (IsData(p) ==> (r.Ok? <==> |p.data| <= MAX_DELIVERABLE))
            && (r.Ok? ==> FromPeer(r.value))
  {
  }

  /** Reading brings events of the peer, at the time of reading, or the end of the transport connection. */
  lemma WireEventsComeFromPeer(
    bytes: seq<byte>, received: nat, now: nat, config: Config, id: Option<string>, order: seq<string>)
    ensures var r := WireEvent(bytes, received, now, config, id, order);
            r.Ok? ==>
              && (FromPeer(r.value) || r.value.RDisconnect?)
              && (EventTime(r.value).Some? ==> EventTime(r.value).value == now)
  {
  }

  /** A valid handshake names a configured connection, and a connection that knows its configured id
      is only ever told that id. */
  lemma RemoteIdIsConfigured(
    bytes: seq<byte>, received: nat, now: nat, config: Config, id: Option<string>, order: seq<string>)
    ensures var r := WireEvent(bytes, received, now, config, id, order);
            r.Ok? && r.value.RIdValid? ==>
              && r.value.id in config.connections
              && (id.Some? && id.value in config.connections ==> r.value.id == id.value)
              && Answers(FromBytes(bytes).packet, config.connections[r.value.id])
  {
  }
}
