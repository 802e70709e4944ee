/** The seven packets on the wire: the writer, the reader in the order its checks run, and
    what they promise each other. */
module Packets {
  import opened Types
  import opened LittleEndian
  import opened Crypto
  import opened Replay

  datatype Packet =
    | Request(version: VersionInfo, protocolId: uint64, expireTimestamp: uint64, tokenSequence: uint64,
              tokenData: PrivateData)
    | Denied
    | Challenge(challengeSequence: uint64, challengeData: ChallengeData)
    | Response(challengeSequence: uint64, challengeData: ChallengeData)
    | KeepAlive(clientIndex: int32, maxClients: int32)
    | Payload(data: bytes)
    | Disconnect

  const REQUEST := 0
  const DENIED := 1
  const CHALLENGE := 2
  const RESPONSE := 3
  const KEEP_ALIVE := 4
  const PAYLOAD := 5
  const DISCONNECT := 6
  const NUM_PACKETS := 7

  function TypeOf(p: Packet): (t: nat)
    ensures t < NUM_PACKETS
  {
    match p
    case Request(_, _, _, _, _) => REQUEST
    case Denied => DENIED
    case Challenge(_, _) => CHALLENGE
    case Response(_, _) => RESPONSE
    case KeepAlive(_, _) => KEEP_ALIVE
    case Payload(_) => PAYLOAD
    case Disconnect => DISCONNECT
  }

  /** The per-packet data before encryption. */
  function Body(p: Packet): bytes
    requires !p.Request?
  {
    match p
    case Denied => []
    case Challenge(n, data) => Encode(8, n) + data
    case Response(n, data) => Encode(8, n) + data
    case KeepAlive(index, max) => Encode(4, ToUint32(index)) + Encode(4, ToUint32(max))
    case Payload(data) => data
    case Disconnect => []
  }

  /** Payloads carry 1 to 1200 bytes; every other packet is the right size by construction. */
  predicate Legal(p: Packet) {
    p.Payload? ==> 1 <= |p.data| <= MAX_PAYLOAD_BYTES
  }

  function PacketAd(protocolId: uint64, prefix: byte): bytes {
    VERSION_INFO + Encode(8, protocolId) + [prefix]
  }

  /** What the seal of a packet covers besides its data: version, protocol and prefix byte. */
  lemma PacketAdLayout(protocolId: uint64, prefix: byte)
    ensures var ad := PacketAd(protocolId, prefix);
            |ad| == 22 && ad[..13] == VERSION_INFO && Decode(ad[13..21]) == protocolId && ad[21] == prefix
  {
    PowValues();
    DecodeEncode(8, protocolId);
    assert PacketAd(protocolId, prefix)[13..21] == Encode(8, protocolId);
  }

  function Prefix(packetType: nat, sequenceBytes: nat): (b: byte)
    requires packetType <= 15 && sequenceBytes <= 15
    ensures b % 16 == packetType && b / 16 == sequenceBytes
  {
    packetType + 16 * sequenceBytes
  }

  /** netcode_write_packet. */
  function WritePacket(a: Aead, p: Packet, sequence: uint64, key: Key, protocolId: uint64): bytes {
    match p
    case Request(version, id, expire, tokenSequence, data) =>
      [0] + version + Encode(8, id) + Encode(8, expire) + Encode(8, tokenSequence) + data
    case _ =>
      var n := SequenceBytes(sequence);
      var prefix := Prefix(TypeOf(p), n);
      [prefix] + Encode(n, sequence) + a.seal(key, Nonce(sequence), PacketAd(protocolId, prefix), Body(p))
  }

  const REQUEST_BYTES := 1 + 13 + 8 + 8 + 8 + 1024

  // ----- reading -----

  /** The reader's branch for a zero prefix byte. */
  function ReadRequest(a: Aead, s: bytes, protocolId: uint64, now: uint64, privateKey: Option<Key>, allowed: set<nat>)
    : Option<Packet>
  {
    if REQUEST !in allowed || |s| != REQUEST_BYTES || privateKey.None? || s[1..14] != VERSION_INFO then None
    else if ReadU64(s[14..]) != protocolId || ReadU64(s[22..]) <= now then None
    else
      var expire := ReadU64(s[22..]);
      var tokenSequence := ReadU64(s[30..]);
      match OpenInPlace(a, privateKey.value, Nonce(tokenSequence),
                        VERSION_INFO + Encode(8, protocolId) + Encode(8, expire), s[38..])
      case None => None
      case Some(data) =>
        if |data| == CONNECT_TOKEN_PRIVATE_BYTES then
          Some(Request(VERSION_INFO, protocolId, expire, tokenSequence, data))
        else None
  }

  /** The switch on the packet type after decryption. */
  function ReadBody(packetType: nat, body: bytes): (r: Option<Packet>)
    ensures r.Some? ==> Legal(r.value) && TypeOf(r.value) == packetType && !r.value.Request?
  {
    if packetType == DENIED && |body| == 0 then Some(Denied)
    else if packetType == CHALLENGE && |body| == 8 + CHALLENGE_TOKEN_BYTES then
      Some(Challenge(ReadU64(body), body[8..]))
    else if packetType == RESPONSE && |body| == 8 + CHALLENGE_TOKEN_BYTES then
      Some(Response(ReadU64(body), body[8..]))
    else if packetType == KEEP_ALIVE && |body| == 8 then
      Some(KeepAlive(ToInt32(ReadU32(body)), ToInt32(ReadU32(body[4..]))))
    else if packetType == PAYLOAD && 1 <= |body| <= MAX_PAYLOAD_BYTES then Some(Payload(body))
    else if packetType == DISCONNECT && |body| == 0 then Some(Disconnect)
    else None
  }

  /** The checks made before anything is decrypted, in the reader's order. */
  predicate HeaderOk(s: bytes, allowed: set<nat>) {
    && |s| >= 1 + 1 + MAC_BYTES
    && s[0] % 16 < NUM_PACKETS
    && s[0] % 16 in allowed
    && 1 <= s[0] / 16 <= 8
    && |s| >= 1 + s[0] / 16 + MAC_BYTES
  }

  function WireSequence(s: bytes): (q: uint64)
    requires |s| >= 1 && 1 <= s[0] / 16 <= 8 && |s| >= 1 + s[0] / 16
  {
    PowValues();
    PowMonotone(s[0] / 16, 8);
    Decode(s[1..1 + s[0] / 16])
  }

  /** The replay filter, which applies to types 4, 5 and 6 when the caller supplies a window. */
  function Filter(window: Option<Window>, packetType: nat, sequence: uint64): (r: (bool, Option<Window>))
    ensures r.1.Some? <==> window.Some?
    ensures r.1.Some? ==> |r.1.value.received| == |window.value.received|
  {
    if window.Some? && packetType >= KEEP_ALIVE then
      var (received, moved) := AlreadyReceived(window.value, sequence);
      (received, Some(moved))
    else (false, window)
  }

  /** What a read gives: the packet with its sequence number, or nothing. */
  type Reading = Option<(Packet, uint64)>

  /** The reader's branch for encrypted packets.  The window moves before decryption is tried. */
  function ReadSealed(a: Aead, s: bytes, key: Option<Key>, protocolId: uint64, allowed: set<nat>,
                      window: Option<Window>): (r: (Reading, Option<Window>))
  {
    if key.None? || !HeaderOk(s, allowed) then (None, window)
    else
      var n := s[0] / 16;
      var sequence := WireSequence(s);
      var (received, moved) := Filter(window, s[0] % 16, sequence);
      if received then (None, moved)
      else
        match a.open(key.value, Nonce(sequence), PacketAd(protocolId, s[0]), s[1 + n..])
        case None => (None, moved)
        case Some(body) =>
          match ReadBody(s[0] % 16, body)
          case None => (None, moved)
          case Some(p) => (Some((p, sequence)), moved)
  }

  /** netcode_read_packet. */
  function ReadPacket(a: Aead, s: bytes, key: Option<Key>, protocolId: uint64, now: uint64, privateKey: Option<Key>,
                      allowed: set<nat>, window: Option<Window>): (r: (Reading, Option<Window>))
    ensures r.1.Some? <==> window.Some?
    ensures r.1.Some? ==> |r.1.value.received| == |window.value.received|
    ensures r.0.Some? ==> Legal(r.0.value.0) && TypeOf(r.0.value.0) in allowed
    ensures r.0.Some? && r.0.value.0.Request? ==> r.1 == window
  {
    if |s| < 1 then (None, window)
    else if s[0] == 0 then
      match ReadRequest(a, s, protocolId, now, privateKey, allowed)
      case None => (None, window)
      case Some(p) => (Some((p, 0)), window)
    else
      ReadSealed(a, s, key, protocolId, allowed, window)
  }

  // ----- what writer and reader promise each other -----

  lemma BodyRoundTrip(p: Packet)
    requires !p.Request? && Legal(p)
    ensures ReadBody(TypeOf(p), Body(p)) == Some(p)
  {
    hide Encode;
    match p
    case Challenge(n, data) =>
      ReadU64Write(n, data);
      assert Body(p)[8..] == data;
    case Response(n, data) =>
      ReadU64Write(n, data);
      assert Body(p)[8..] == data;
    case KeepAlive(index, max) =>
      ReadU32Write(ToUint32(index), Encode(4, ToUint32(max)));
      ReadU32Write(ToUint32(max), []);
      assert Body(p)[4..] == Encode(4, ToUint32(max)) + [];
    case _ =>
  }

  lemma WrittenHeader(a: Aead, p: Packet, sequence: uint64, key: Key, protocolId: uint64)
    requires Lawful(a) && !p.Request?
    ensures var n := SequenceBytes(sequence);
            var s := WritePacket(a, p, sequence, key, protocolId);
            && |s| == 1 + n + |Body(p)| + MAC_BYTES
            && s[0] == Prefix(TypeOf(p), n) && s[1..1 + n] == Encode(n, sequence)
            && s[1 + n..] == a.seal(key, Nonce(sequence), PacketAd(protocolId, s[0]), Body(p))
            && WireSequence(s) == sequence
  {
    DecodeEncode(SequenceBytes(sequence), sequence);
  }

  /** Reading a written packet of types 1 to 6 with the same key and protocol gives back the packet
      and its sequence exactly when its type is allowed and the replay filter lets it through. */
  lemma SealedRoundTrip(a: Aead, p: Packet, sequence: uint64, key: Key, protocolId: uint64, now: uint64,
                        privateKey: Option<Key>, allowed: set<nat>, window: Option<Window>)
    requires Lawful(a) && !p.Request? && Legal(p)
    ensures var s := WritePacket(a, p, sequence, key, protocolId);
            var (reading, moved) := ReadPacket(a, s, Some(key), protocolId, now, privateKey, allowed, window);
            if TypeOf(p) !in allowed then reading == None && moved == window
            else
              && moved == Filter(window, TypeOf(p), sequence).1
              && reading == if Filter(window, TypeOf(p), sequence).0 then None else Some((p, sequence))
  {
    hide Encode, Nonce, PacketAd, ReadBody, Body, WritePacket, Filter;
    WrittenHeader(a, p, sequence, key, protocolId);
    BodyRoundTrip(p);
  }

  /** The wire length is 1 + n + body + 16, where n is the least count in 1..8 with
      sequence < 256^n. */
  lemma WireLength(a: Aead, p: Packet, sequence: uint64, key: Key, protocolId: uint64, n: nat)
    requires Lawful(a) && !p.Request? && n >= 1
    ensures |WritePacket(a, p, sequence, key, protocolId)| <= 1 + n + |Body(p)| + MAC_BYTES
            <==> sequence < Pow256(n)
  {
    WrittenHeader(a, p, sequence, key, protocolId);
    SequenceBytesLeast(sequence, n);
  }

  /** A full 1200-byte payload fits the 1220-byte packet buffer exactly while the sequence is
      below 2^24; payloads of up to 1195 bytes always fit. */
  lemma FullPayloadFits(a: Aead, data: bytes, sequence: uint64, key: Key, protocolId: uint64)
    requires Lawful(a) && |data| <= MAX_PAYLOAD_BYTES
    ensures |data| == MAX_PAYLOAD_BYTES ==>
              (|WritePacket(a, Payload(data), sequence, key, protocolId)| <= MAX_PACKET_BYTES
               <==> sequence < 0x100_0000)
    ensures |data| <= 1195 ==> |WritePacket(a, Payload(data), sequence, key, protocolId)| <= MAX_PACKET_BYTES
  {
    PowValues();
    WireLength(a, Payload(data), sequence, key, protocolId, 3);
    WireLength(a, Payload(data), sequence, key, protocolId, 8);
  }

  lemma RequestLayout(a: Aead, p: Packet, sequence: uint64, key: Key, protocolId: uint64)
    requires p.Request?
    ensures var s := WritePacket(a, p, sequence, key, protocolId);
            && |s| == REQUEST_BYTES && s[0] == 0 && s[1..14] == p.version
            && ReadU64(s[14..]) == p.protocolId && ReadU64(s[22..]) == p.expireTimestamp
            && ReadU64(s[30..]) == p.tokenSequence && s[38..] == p.tokenData
  {
    hide Encode;
    var s := WritePacket(a, p, sequence, key, protocolId);
    var s2 := Encode(8, p.tokenSequence) + p.tokenData;
    var s1 := Encode(8, p.expireTimestamp) + s2;
    var s0 := Encode(8, p.protocolId) + s1;
    assert s == [0] + p.version + s0;
    assert s[14..] == s0;
    ReadU64Write(p.protocolId, s1);
    assert s[22..] == s1;
    ReadU64Write(p.expireTimestamp, s2);
    assert s[30..] == s2;
    ReadU64Write(p.tokenSequence, p.tokenData);
  }

  /** A written request is accepted exactly when requests are allowed, the reader has a private
      key that opens the token, and version, protocol and expiry pass; it then carries the
      token's plain text followed by its unchanged 16-byte tag. */
  lemma RequestRoundTrip(a: Aead, p: Packet, sequence: uint64, writeKey: Key, key: Option<Key>, protocolId: uint64,
                         now: uint64, privateKey: Option<Key>, allowed: set<nat>, window: Option<Window>)
    requires Lawful(a) && p.Request?
    ensures var s := WritePacket(a, p, sequence, writeKey, protocolId);
            var (reading, moved) := ReadPacket(a, s, key, protocolId, now, privateKey, allowed, window);
            var ad := p.version + Encode(8, p.protocolId) + Encode(8, p.expireTimestamp);
            && moved == window
            && (reading.Some? <==>
                && REQUEST in allowed && p.version == VERSION_INFO && p.protocolId == protocolId
                && p.expireTimestamp > now && privateKey.Some?
                && OpenInPlace(a, privateKey.value, Nonce(p.tokenSequence), ad, p.tokenData).Some?)
            && (reading.Some? ==>
                && OpenInPlace(a, privateKey.value, Nonce(p.tokenSequence), ad, p.tokenData).value
                   == reading.value.0.tokenData
                && reading == Some((p.(tokenData := reading.value.0.tokenData), 0)))
  {
    hide Encode, Nonce, WritePacket;
    RequestLayout(a, p, sequence, writeKey, protocolId);
  }

  /** How a read moves the window: not at all, or by one call of the filter; and a packet of a
      filtered type was let through by exactly that call. */
  lemma ReadMovesWindow(a: Aead, s: bytes, key: Option<Key>, protocolId: uint64, now: uint64, privateKey: Option<Key>,
                        allowed: set<nat>, window: Window)
    ensures var (reading, moved) := ReadPacket(a, s, key, protocolId, now, privateKey, allowed, Some(window));
            && (moved == Some(window) || exists q: uint64 :: moved == Some(AlreadyReceived(window, q).1))
            && (reading.Some? && TypeOf(reading.value.0) >= KEEP_ALIVE ==>
                  && !AlreadyReceived(window, reading.value.1).0
                  && moved == Some(AlreadyReceived(window, reading.value.1).1))
  {
  }
}
