/** What the codec of packet.rs promises: round trips, prefix-freeness, and unambiguous handshakes. */
module Codec {
  import opened Prelude
  import opened Configuration
  import opened Packets

  /** Whatever follows a packet in the read buffer, the packet comes back, exactly up to 10235 payload
      bytes. The 10236 to 10240 byte payloads that `New` still admits are refused by the reader. */
  lemma RoundTrip(p: Packet, junk: seq<byte>)
    requires |p.data| <= MAX_PAYLOAD
    ensures FromBytes(Encode(p) + junk) == if |p.data| <= MAX_DELIVERABLE then Parsed(p) else TooLong
  {
    var bytes := Encode(p) + junk;
    var length := HEADER + |p.data|;
    assert bytes[2] as nat == length / 256 && bytes[3] as nat == length % 256;
    assert DeclaredLength(bytes) == length;
    assert TypeOf(bytes[4]) == Some(p.typ);
    if length <= MAX_LENGTH {
      assert bytes[HEADER..length] == p.data;
    }
  }

  /** What is read is what the format says, and there is only one way to say it: a buffer gives `p` if and only
      if it begins with the bytes of `p`, at most 10240 of them. */
  lemma ReadsFormat(bytes: seq<byte>, p: Packet)
    ensures FromBytes(bytes) == Parsed(p) <==>
            5 + |p.data| <= |bytes| && 5 + |p.data| <= 10240 && HasFormat(bytes[..5 + |p.data|], p)
  {
    var n := 5 + |p.data|;
    if FromBytes(bytes) == Parsed(p) {
      assert bytes[..n][5..] == bytes[5..n];
    }
    if n <= |bytes| && n <= 10240 && HasFormat(bytes[..n], p) {
      assert forall i :: 0 <= i < 5 ==> bytes[i] == bytes[..n][i];
      assert bytes[..n][5..] == bytes[5..n];
    }
  }

  /** When a buffer is refused: for its header, or for more than 10240 bytes. Of the rest, those that announce
      fewer than five bytes, or more than there are, make the slice fail. */
  lemma RefusesFormat(bytes: seq<byte>)
    ensures var good := |bytes| >= 5 && bytes[0] == 2 && bytes[1] == 0 && 1 <= bytes[4] <= 4;
            var length := if good then bytes[2] as nat * 256 + bytes[3] as nat else 0;
            && (FromBytes(bytes).Malformed? <==> !good)
            && (FromBytes(bytes).TooLong? <==> good && length > 10240)
            && (FromBytes(bytes).Panics? <==> good && length <= 10240 && (length < 5 || length > |bytes|))
  {
  }

  /** The bytes of the five packets without variable parts. */
  lemma FixedPacketsOnTheWire()
    ensures Encode(ACCEPT_PACKET) == [2, 0, 0, 11, 3, 65, 67, 67, 69, 80, 84]
    ensures Encode(REJECT_PACKET) == [2, 0, 0, 11, 3, 82, 69, 74, 69, 67, 84]
    ensures Encode(SHUTDOWN_PACKET) == [2, 0, 0, 7, 4, 48, 48]
    ensures Encode(STARTUP_PACKET) == [2, 0, 0, 7, 4, 48, 49]
    ensures Encode(HEARTBEAT_PACKET) == [2, 0, 0, 7, 4, 48, 51]
  {
  }

  /** The converse: an accepted buffer starts with the encoding of the packet read from it. */
  lemma AcceptedBufferReencodes(bytes: seq<byte>)
    requires FromBytes(bytes).Parsed?
    ensures var p := FromBytes(bytes).packet;
            var length := DeclaredLength(bytes);
            && HEADER <= length <= |bytes|
            && length == HEADER + |p.data|
            && |p.data| <= MAX_DELIVERABLE
            && Encode(p) == bytes[..length]
  {
    var p := FromBytes(bytes).packet;
    var length := DeclaredLength(bytes);
    assert |p.data| == length - HEADER;
    assert HeaderBytes(length, p.typ) == bytes[..HEADER];
    assert bytes[..HEADER] + bytes[HEADER..length] == bytes[..length];
  }

  /** A buffer gives a readable packet exactly if it begins with its encoding. */
  lemma ReadableBuffer(p: Packet, bytes: seq<byte>)
    requires |p.data| <= MAX_DELIVERABLE
    ensures FromBytes(bytes) == Parsed(p) <==> Encode(p) <= bytes
  {
    if Encode(p) <= bytes {
      var stale := bytes[|Encode(p)|..];
      assert bytes == Encode(p) + stale;
      RoundTrip(p, stale);
    }
    if FromBytes(bytes) == Parsed(p) {
      AcceptedBufferReencodes(bytes);
    }
  }

  /** No encoding of an acceptable packet is a proper prefix of another one. */
  lemma PrefixFree(p: Packet, q: Packet)
    requires |p.data| <= MAX_DELIVERABLE && |q.data| <= MAX_DELIVERABLE
    requires Encode(p) <= Encode(q)
    ensures p == q
  {
    var rest := Encode(q)[|Encode(p)|..];
    assert Encode(p) + rest == Encode(q) == Encode(q) + [];
    RoundTrip(p, rest);
    RoundTrip(q, []);
  }

  /** With a read buffer that is at least as long as the largest packet, as the driver's is, only a
      length field below the header size is out of range. */
  lemma DriverBufferPanicsOnlyOnShortLength(bytes: seq<byte>)
    requires |bytes| >= MAX_LENGTH
    ensures FromBytes(bytes).Panics? <==> HeaderOk(bytes) && DeclaredLength(bytes) < HEADER
  {
  }

  /** Such a buffer: a header of a good version and type that declares four bytes. */
  lemma ShortLengthPanics()
    ensures exists bytes: seq<byte> :: |bytes| == MAX_LENGTH && FromBytes(bytes).Panics?
  {
    var bytes: seq<byte> := [2, 0, 0, 4, 1] + seq(MAX_LENGTH - HEADER, _ => 0);
    assert FromBytes(bytes).Panics?;
  }

  predicate DashFree(id: seq<byte>) { DASH !in id }

  /** (l2, r2) splits the payload of (l1, r1) at a later dash, one inside r1. */
  predicate SplitsLater(l1: seq<byte>, r1: seq<byte>, l2: seq<byte>, r2: seq<byte>) {
    && |l1| < |l2|
    && l2[..|l1|] == l1
    && l2[|l1|] == DASH
    && r1 == l2[|l1| + 1..] + [DASH] + r2
  }

  lemma LaterSplit(l1: Identifier, r1: Identifier, l2: Identifier, r2: Identifier)
    requires |l1| < |l2|
    ensures HandshakePayload(l1, r1) == HandshakePayload(l2, r2) <==> SplitsLater(l1, r1, l2, r2)
  {
    var p, q := HandshakePayload(l1, r1), HandshakePayload(l2, r2);
    if p == q {
      assert l2 == q[..|l2|];
      assert l1 == p[..|l1|];
      assert l2[..|l1|] == p[..|l1|];
      assert l2[|l1|] == p[|l1|];
      assert r1 == p[|l1| + 1..];
      assert q[|l1| + 1..] == l2[|l1| + 1..] + [DASH] + r2;
    }
    if SplitsLater(l1, r1, l2, r2) {
      assert l2 == l1 + [DASH] + l2[|l1| + 1..];
      assert q == l1 + [DASH] + (l2[|l1| + 1..] + [DASH] + r2);
    }
  }

  /** When two identifier pairs make the same handshake: they are equal, or one splits the other's
      payload at a dash inside an identifier. */
  lemma HandshakesCollide(l1: Identifier, r1: Identifier, l2: Identifier, r2: Identifier)
    ensures HandshakePayload(l1, r1) == HandshakePayload(l2, r2) <==>
            || (l1 == l2 && r1 == r2)
            || SplitsLater(l1, r1, l2, r2)
            || SplitsLater(l2, r2, l1, r1)
  {
    var p, q := HandshakePayload(l1, r1), HandshakePayload(l2, r2);
    if |l1| < |l2| {
      LaterSplit(l1, r1, l2, r2);
    } else if |l2| < |l1| {
      LaterSplit(l2, r2, l1, r1);
    } else if p == q {
      assert l1 == p[..|l1|] && l2 == q[..|l2|];
      assert r1 == p[|l1| + 1..] && r2 == q[|l2| + 1..];
    }
  }

  /** Identifiers may contain dashes, and then the handshake is ambiguous: A-B with C, and A with B-C. */
  lemma DashesMakeHandshakesAmbiguous()
    ensures exists l1: Identifier, r1: Identifier, l2: Identifier, r2: Identifier ::
              l1 != l2 && HandshakePayload(l1, r1) == HandshakePayload(l2, r2)
  {
    var l1: Identifier, r1: Identifier := [65], [66, 45, 67];
    var l2: Identifier, r2: Identifier := [65, 45, 66], [67];
    assert HandshakePayload(l1, r1) == HandshakePayload(l2, r2);
  }

  predicate Mirrored(c: ConnectionConfig, d: ConnectionConfig) {
    c.localId == d.remoteId && c.remoteId == d.localId
  }

  predicate Plain(c: ConnectionConfig) {
    DashFree(c.localId) && DashFree(c.remoteId)
  }

  /** Among dash-free configurations, the peer's handshake answers exactly the mirror image. */
  lemma HandshakeAnswersMirrorOnly(c: ConnectionConfig, d: ConnectionConfig)
    requires Plain(c) && Plain(d)
    ensures Answers(HandshakePacket(c.localId, c.remoteId), d) <==> Mirrored(c, d)
  {
    HandshakesCollide(c.localId, c.remoteId, d.remoteId, d.localId);
  }

  /** No two entries are for the same pair of identifiers. */
  ghost predicate DistinctPairs(config: Config) {
    forall j, k :: j in config.connections && k in config.connections && j != k ==>
                     config.connections[j].localId != config.connections[k].localId
                     || config.connections[j].remoteId != config.connections[k].remoteId
  }

  ghost predicate AllPlain(config: Config) {
    forall k :: k in config.connections ==> Plain(config.connections[k])
  }

  /** If one entry alone is answered, the search finds it, whatever the iteration order of the map. */
  lemma SoleAnswerIsFound(p: Packet, config: Config, key: string, order: seq<string>)
    requires Enumerates(order, config.connections)
    requires forall k :: k in config.connections ==> (Answers(p, config.connections[k]) <==> k == key)
    requires key in config.connections
    ensures FirstAnswered(p, config.connections, order) == Some(key)
  {
    assert key in order;
  }

  /** No two entries expect the same handshake from their peer. */
  ghost predicate DistinctExpectations(config: Config) {
    forall j, k :: j in config.connections && k in config.connections && j != k ==>
                     Expected(config.connections[j]) != Expected(config.connections[k])
  }

  /** Different dash-free pairs are enough for that. */
  lemma PlainPairsAreDistinct(config: Config)
    requires AllPlain(config) && DistinctPairs(config)
    ensures DistinctExpectations(config)
  {
    forall j, k | j in config.connections && k in config.connections && j != k
      ensures Expected(config.connections[j]) != Expected(config.connections[k])
    {
      var c, d := config.connections[j], config.connections[k];
      HandshakesCollide(c.remoteId, c.localId, d.remoteId, d.localId);
    }
  }

  /** The id found for a packet is the same under every iteration order of the map. */
  ghost predicate IgnoresOrder(config: Config, p: Packet, id: Option<string>) {
    forall order, order' :: Enumerates(order, config.connections) && Enumerates(order', config.connections) ==>
                              HandshakeId(p, config, id, order) == HandshakeId(p, config, id, order')
  }

  lemma DistinctSearchIgnoresOrder(config: Config, p: Packet, id: Option<string>)
    requires DistinctExpectations(config)
    ensures IgnoresOrder(config, p, id)
  {
    forall j, k | j in config.connections && k in config.connections
                  && Answers(p, config.connections[j]) && Answers(p, config.connections[k])
      ensures j == k
    {
      assert Expected(config.connections[j]) == p.data == Expected(config.connections[k]);
    }
  }

  /** The id found never depends on the iteration order if and only if no two entries expect the same
      handshake; that their identifier pairs differ is not enough when identifiers contain dashes. */
  lemma SearchIgnoresOrder(config: Config)
    ensures (forall p, id :: IgnoresOrder(config, p, id)) <==> DistinctExpectations(config)
  {
    if DistinctExpectations(config) {
      forall p, id
        ensures IgnoresOrder(config, p, id)
      {
        DistinctSearchIgnoresOrder(config, p, id);
      }
    } else {
      var j, k :| j in config.connections && k in config.connections && j != k
                  && Expected(config.connections[j]) == Expected(config.connections[k]);
      var p := Packet(Identification, Expected(config.connections[j]));
      var orderJ := OrderFrom(config.connections, j);
      var orderK := OrderFrom(config.connections, k);
      assert HandshakeId(p, config, None, orderJ) == Some(j);
      assert HandshakeId(p, config, None, orderK) == Some(k);
      assert !IgnoresOrder(config, p, None);
    }
  }

  /** A searching server finds the mirror entry among different dash-free pairs. */
  lemma MirrorIsFound(c: ConnectionConfig, config: Config, key: string, order: seq<string>)
    requires Enumerates(order, config.connections)
    requires AllPlain(config) && DistinctPairs(config)
    requires key in config.connections && Mirrored(c, config.connections[key])
    ensures FirstAnswered(HandshakePacket(c.localId, c.remoteId), config.connections, order) == Some(key)
  {
    var p := HandshakePacket(c.localId, c.remoteId);
    MirrorIsSole(c, config, key);
    SoleAnswerIsFound(p, config, key, order);
  }

  lemma MirrorIsSole(c: ConnectionConfig, config: Config, key: string)
    requires DistinctPairs(config) && AllPlain(config)
    requires key in config.connections && Mirrored(c, config.connections[key])
    ensures forall k :: k in config.connections ==>
                          (Answers(HandshakePacket(c.localId, c.remoteId), config.connections[k]) <==> k == key)
  {
    forall k | k in config.connections
      ensures Answers(HandshakePacket(c.localId, c.remoteId), config.connections[k]) <==> k == key
    {
      HandshakeAnswersMirrorOnly(c, config.connections[k]);
    }
  }

  /** A handshake carries a dash, ACCEPT and REJECT do not. */
  lemma HandshakeIsNoVerdict(localId: Identifier, remoteId: Identifier)
    ensures !IsAccept(HandshakePacket(localId, remoteId))
    ensures !IsReject(HandshakePacket(localId, remoteId))
  {
    assert HandshakePayload(localId, remoteId)[|localId|] == DASH;
  }
}
