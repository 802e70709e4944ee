/** The Go packet codec for types 1 to 6.  The reader runs its checks in its own order; it is shown
    to accept what the C reader accepts and to leave the same replay window. */
module GoPackets {
  import opened Types
  import opened LittleEndian
  import opened Crypto
  import opened Packets
  import opened ReplayBuffer
  import opened GoBuffer
  import W = Wire
  import R = Replay

  /** The packet structs.  Keep-alive fields are unsigned here. */
  datatype GoPacket =
    | GoDenied
    | GoChallenge(tokenSequence: uint64, tokenData: ChallengeData)
    | GoResponse(tokenSequence: uint64, tokenData: ChallengeData)
    | GoKeepAlive(clientIndex: uint32, maxClients: uint32)
    | GoPayload(payload: bytes)
    | GoDisconnect

  /** The same packet as the C implementation holds it. */
  function InC(p: GoPacket): (r: Packet)
    ensures !r.Request?
  {
    match p
    case GoDenied => Denied
    case GoChallenge(n, data) => Challenge(n, data)
    case GoResponse(n, data) => Response(n, data)
    case GoKeepAlive(index, max) => KeepAlive(ToInt32(index), ToInt32(max))
    case GoPayload(data) => Payload(data)
    case GoDisconnect => Disconnect
  }

  // ----- the reader, in its own order -----

  /** readSequence: the length byte and the room for sequence and tag come first. */
  function ReadSequence(s: bytes): (r: Option<uint64>)
    requires |s| >= 1
  {
    var n := s[0] / 16;
    if n < 1 || n > 8 || |s| < 1 + n + MAC_BYTES then None
    else
      PowValues();
      PowMonotone(n, 8);
      Some(Decode(s[1..1 + n]))
  }

  /** validateSequence: key, size, type, permission and at last the replay filter. */
  function Validate(s: bytes, sequence: uint64, key: Option<Key>, allowed: set<nat>, window: Option<R.Window>)
    : (r: (bool, Option<R.Window>))
    requires |s| >= 1
  {
    if key.None? || |s| < 1 + 1 + MAC_BYTES || s[0] % 16 >= NUM_PACKETS || s[0] % 16 !in allowed then (false, window)
    else
      var (received, moved) := Filter(window, s[0] % 16, sequence);
      (!received, moved)
  }

  /** decryptPacket. */
  function Decrypt(a: Aead, s: bytes, protocolId: uint64, key: Option<Key>, allowed: set<nat>,
                   window: Option<R.Window>): (r: (Option<(uint64, bytes)>, Option<R.Window>))
    requires |s| >= 1
  {
    match ReadSequence(s)
    case None => (None, window)
    case Some(sequence) =>
      var (ok, moved) := Validate(s, sequence, key, allowed, window);
      if !ok then (None, moved)
      else
        match a.open(key.value, Nonce(sequence), PacketAd(protocolId, s[0]), s[1 + s[0] / 16..])
        case None => (None, moved)
        case Some(plain) => (Some((sequence, plain)), moved)
  }

  /** The rest of each type's Read method. */
  function ReadFields(packetType: nat, plain: bytes): Option<GoPacket> {
    if packetType == DENIED then if |plain| != 0 then None else Some(GoDenied)
    else if packetType == CHALLENGE then
      if |plain| != 8 + CHALLENGE_TOKEN_BYTES then None else Some(GoChallenge(ReadU64(plain), plain[8..]))
    else if packetType == RESPONSE then
      if |plain| != 8 + CHALLENGE_TOKEN_BYTES then None else Some(GoResponse(ReadU64(plain), plain[8..]))
    else if packetType == KEEP_ALIVE then
      if |plain| != 8 then None else Some(GoKeepAlive(ReadU32(plain), ReadU32(plain[4..])))
    else if packetType == PAYLOAD then
      if |plain| < 1 || |plain| > MAX_PAYLOAD_BYTES then None else Some(GoPayload(plain))
    else if packetType == DISCONNECT then if |plain| != 0 then None else Some(GoDisconnect)
    else None
  }

  type GoReading = Option<(GoPacket, uint64)>

  /** NewPacket picks the struct by the low four bits, and the struct's Read does the rest.  A
      struct for requests rejects any prefix but zero, and types above 6 have no struct. */
  function Read(a: Aead, s: bytes, protocolId: uint64, key: Option<Key>, allowed: set<nat>, window: Option<R.Window>)
    : (r: (GoReading, Option<R.Window>))
    requires |s| >= 1 && s[0] != 0
  {
    var packetType := s[0] % 16;
    if packetType == REQUEST || packetType >= NUM_PACKETS then (None, window)
    else
      var (decrypted, moved) := Decrypt(a, s, protocolId, key, allowed, window);
      match decrypted
      case None => (None, moved)
      case Some((sequence, plain)) =>
        match ReadFields(packetType, plain)
        case None => (None, moved)
        case Some(p) => (Some((p, sequence)), moved)
  }

  function ReadingInC(r: GoReading): Reading {
    if r.None? then None else Some((InC(r.value.0), r.value.1))
  }

  lemma FieldsAgree(packetType: nat, plain: bytes)
    requires packetType != REQUEST
    ensures ReadBody(packetType, plain)
         == var p := ReadFields(packetType, plain); if p.None? then None else Some(InC(p.value))
  {
  }

  /** On every non-empty buffer whose prefix byte is not zero the two readers accept the same
      packets with the same sequence and leave the same replay window. */
  lemma ReadersAgree(a: Aead, s: bytes, protocolId: uint64, now: uint64, key: Option<Key>, privateKey: Option<Key>,
                     allowed: set<nat>, window: Option<R.Window>)
    requires |s| >= 1 && s[0] != 0
    ensures var (reading, moved) := Read(a, s, protocolId, key, allowed, window);
            (ReadingInC(reading), moved) == ReadPacket(a, s, key, protocolId, now, privateKey, allowed, window)
  {
    hide ReadFields, ReadBody, Nonce, PacketAd, Decode, InC;
    if s[0] % 16 != REQUEST && key.Some? && HeaderOk(s, allowed) {
      var sequence := WireSequence(s);
      var plain := a.open(key.value, Nonce(sequence), PacketAd(protocolId, s[0]), s[1 + s[0] / 16..]);
      if plain.Some? {
        FieldsAgree(s[0] % 16, plain.value);
      }
    } else {
      NothingOfTypeZero();
    }
  }

  /** The C reader decrypts such a packet when type 0 is allowed, and then drops it. */
  lemma NothingOfTypeZero()
    ensures forall plain: bytes :: ReadBody(REQUEST, plain) == None
  {
  }

  /** What either implementation writes, the other reads back, with its sequence, exactly when the
      type is allowed and the replay filter lets it through. */
  lemma GoReadsWhatCWrites(a: Aead, p: GoPacket, sequence: uint64, key: Key, protocolId: uint64, allowed: set<nat>,
                           window: Option<R.Window>)
    requires Lawful(a) && Legal(InC(p))
    ensures var s := WritePacket(a, InC(p), sequence, key, protocolId);
            && |s| >= 1 && s[0] != 0
            && ReadingInC(Read(a, s, protocolId, Some(key), allowed, window).0)
            == if TypeOf(InC(p)) !in allowed || Filter(window, TypeOf(InC(p)), sequence).0 then None
               else Some((InC(p), sequence))
  {
    hide Lawful, Legal, Read, ReadPacket, Filter, WritePacket, InC;
    var s := WritePacket(a, InC(p), sequence, key, protocolId);
    WrittenHeader(a, InC(p), sequence, key, protocolId);
    SealedRoundTrip(a, InC(p), sequence, key, protocolId, 0, None, allowed, window);
    ReadersAgree(a, s, protocolId, 0, Some(key), None, allowed, window);
  }

  // ----- the reader over its buffer -----

  method ReadSequenceFrom(packet: Buffer, packetLen: nat, prefix: byte) returns (sequence: Option<uint64>)
    requires packet.pos == 1 <= packetLen <= packet.buf.Length && prefix == packet.buf[0]
    modifies packet
    ensures sequence == ReadSequence(packet.buf[..packetLen])
    ensures sequence.Some? ==> 1 <= prefix / 16 <= 8 && packet.pos == 1 + prefix / 16
    ensures sequence.Some? ==> packetLen >= 1 + prefix / 16 + MAC_BYTES
  {
    var n := prefix / 16;
    if n < 1 || n > 8 {
      return None;
    }
    if packetLen < 1 + n + MAC_BYTES {
      return None;
    }
    PowValues();
    PowMonotone(n, 8);
    var v: nat := 0;
    var unit: nat := 1;
    var i: nat := 0;
    while i < n
      invariant i <= n && packet.pos == 1 + i && unit == Pow256(i)
      invariant v == Decode(packet.buf[1..1 + i])
    {
      var val := packet.GetUint8();
      OneByte(packet.buf[1 + i..1 + i + 1]);
      W.DecodeNext(packet.buf[1..1 + i], val);
      assert packet.buf[1..1 + i + 1] == packet.buf[1..1 + i] + [val];
      v := v + val * unit;
      unit := 256 * unit;
      i := i + 1;
    }
    SliceOfPrefix(packet.buf[..], packetLen, n);
    return Some(v);
  }

  lemma SliceOfPrefix(s: bytes, len: nat, n: nat)
    requires 1 + n <= len <= |s|
    ensures s[..len][1..1 + n] == s[1..1 + n]
  {
  }

  lemma OneByte(s: bytes)
    requires |s| == 1
    ensures Decode(s) == s[0]
  {
  }

  method ValidateSequence(packetLen: nat, prefix: byte, sequence: uint64, key: Option<Key>, allowed: set<nat>,
                          window: ReplayProtection?, ghost s: bytes) returns (ok: bool)
    requires packetLen == |s| >= 1 && prefix == s[0] && W.WindowValid(window)
    modifies W.Footprint(window)
    ensures W.WindowValid(window)
    ensures (ok, W.WindowModel(window)) == Validate(s, sequence, key, allowed, old(W.WindowModel(window)))
  {
    hide Filter;
    if key.None? {
      return false;
    }
    if packetLen < 1 + 1 + MAC_BYTES {
      return false;
    }
    var packetType := prefix % 16;
    if packetType >= NUM_PACKETS {
      return false;
    }
    if packetType !in allowed {
      return false;
    }
    var received := W.FilterWith(window, packetType, sequence);
    return !received;
  }

  /** packetCryptData: associated data and nonce, each written into a buffer of its exact size. */
  method PacketCryptData(prefix: byte, protocolId: uint64, sequence: uint64) returns (ad: bytes, nonce: bytes)
    ensures ad == PacketAd(protocolId, prefix) && nonce == Nonce(sequence)
  {
    hide Encode;
    var adBytes := new byte[22];
    var additional := new Buffer(adBytes);
    ghost var before := adBytes[..];
    additional.WriteBytesN(VERSION_INFO, VERSION_INFO_BYTES);
    assert VERSION_INFO[..VERSION_INFO_BYTES] == VERSION_INFO;
    W.PutTwice(before, 0, VERSION_INFO, Encode(8, protocolId));
    additional.WriteUint64(protocolId);
    W.PutTwice(before, 0, VERSION_INFO + Encode(8, protocolId), [prefix]);
    additional.WriteUint8(prefix);
    ad := adBytes[..];
    var nonceBytes := new byte[12];
    var counter := new Buffer(nonceBytes);
    ghost var blank := nonceBytes[..];
    counter.WriteUint32(0);
    W.PutTwice(blank, 0, Encode(4, 0), Encode(8, sequence));
    counter.WriteUint64(sequence);
    nonce := nonceBytes[..];
  }

  /** decryptPacket, on a fresh cursor. */
  method DecryptPacket(a: Aead, packet: Buffer, packetLen: nat, protocolId: uint64, key: Option<Key>,
                       allowed: set<nat>, window: ReplayProtection?) returns (r: Option<(uint64, bytes)>)
    requires Lawful(a) && packet.pos == 0 && 1 <= packetLen <= packet.buf.Length && W.WindowValid(window)
    requires packet !in W.Footprint(window) && packet.buf !in W.Footprint(window)
    modifies packet, packet.buf, W.Footprint(window)
    ensures W.WindowValid(window)
    ensures (r, W.WindowModel(window))
         == Decrypt(a, old(packet.buf[..packetLen]), protocolId, key, allowed, old(W.WindowModel(window)))
    ensures r.Some? ==> 1 + old(packet.buf[0]) / 16 + |r.value.1| <= packetLen
    ensures packet.buf[..] == if r.None? then old(packet.buf[..])
                              else W.Put(old(packet.buf[..]), 1 + old(packet.buf[0]) / 16, r.value.1)
  {
    hide ReadSequence, Validate, Nonce, PacketAd, Decode, Lawful;
    ghost var s := packet.buf[..packetLen];
    OneByte(packet.buf[0..1]);
    var prefix := packet.GetUint8();
    var sequence := ReadSequenceFrom(packet, packetLen, prefix);
    if sequence.None? {
      return None;
    }
    var ok := ValidateSequence(packetLen, prefix, sequence.value, key, allowed, window, s);
    if !ok {
      return None;
    }
    var ad, nonce := PacketCryptData(prefix, protocolId, sequence.value);
    NeedsKey(s, sequence.value, key, allowed, old(W.WindowModel(window)));
    var start := packet.pos;
    var encrypted := packet.GetBytes(packetLen - packet.pos);
    assert encrypted == Some(s[1 + prefix / 16..]);
    var plain := DecryptInPlace(a, packet.buf, start, packetLen, key.value, nonce, ad);
    return if plain.None? then None else Some((sequence.value, plain.value));
  }

  /** DecryptAead: the plain text overwrites the start of the cipher text in the packet's slice. */
  method DecryptInPlace(a: Aead, buf: array<byte>, start: nat, end: nat, key: Key, nonce: bytes, ad: bytes)
    returns (plain: Option<bytes>)
    requires Lawful(a) && start <= end <= buf.Length
    modifies buf
    ensures plain == a.open(key, nonce, ad, old(buf[start..end]))
    ensures plain.Some? ==> start + |plain.value| <= end
    ensures buf[..] == if plain.None? then old(buf[..]) else W.Put(old(buf[..]), start, plain.value)
  {
    plain := a.open(key, nonce, ad, buf[start..end]);
    if plain.Some? {
      var target := new Buffer(buf);
      target.pos := start;
      target.WriteBytesN(plain.value, |plain.value|);
      assert plain.value[..|plain.value|] == plain.value;
    }
  }

  lemma NeedsKey(s: bytes, sequence: uint64, key: Option<Key>, allowed: set<nat>, window: Option<R.Window>)
    requires |s| >= 1
    ensures Validate(s, sequence, key, allowed, window).0 ==> key.Some?
  {
  }

  /** The fields of a decrypted packet, read through a buffer over the plain text. */
  method ReadFieldsFrom(packetType: nat, plain: bytes) returns (p: Option<GoPacket>)
    ensures p == ReadFields(packetType, plain)
  {
    hide Decode;
    PowValues();
    var data := new byte[|plain|](i requires 0 <= i < |plain| => plain[i]);
    assert data[..] == plain;
    var decrypted := new Buffer(data);
    if packetType == DENIED || packetType == DISCONNECT {
      if |plain| != 0 {
        return None;
      }
      return Some(if packetType == DENIED then GoDenied else GoDisconnect);
    }
    if packetType == CHALLENGE || packetType == RESPONSE {
      if |plain| != 8 + CHALLENGE_TOKEN_BYTES {
        return None;
      }
      var tokenSequence := decrypted.GetUint64();
      assert data[0..8] == plain[..8];
      W.ReadU64Is(plain, tokenSequence);
      var token := decrypted.GetBytes(CHALLENGE_TOKEN_BYTES);
      assert data[8..8 + CHALLENGE_TOKEN_BYTES] == plain[8..];
      return Some(if packetType == CHALLENGE then GoChallenge(tokenSequence, token.value)
                  else GoResponse(tokenSequence, token.value));
    }
    if packetType == KEEP_ALIVE {
      if |plain| != 8 {
        return None;
      }
      var index := decrypted.GetUint32();
      var max := decrypted.GetUint32();
      assert data[0..4] == plain[..4] && data[4..8] == plain[4..][..4];
      W.ReadU32Is(plain, index);
      W.ReadU32Is(plain[4..], max);
      return Some(GoKeepAlive(index, max));
    }
    if packetType == PAYLOAD {
      if |plain| < 1 || |plain| > MAX_PAYLOAD_BYTES {
        return None;
      }
      return Some(GoPayload(plain));
    }
    return None;
  }

  /** NewPacket and the Read method of the struct it picks. */
  method ReadFrom(a: Aead, packetData: array<byte>, packetLen: nat, protocolId: uint64, key: Option<Key>,
                  allowed: set<nat>, window: ReplayProtection?) returns (reading: GoReading)
    requires Lawful(a) && 1 <= packetLen <= packetData.Length && packetData[0] != 0
    requires W.WindowValid(window) && packetData !in W.Footprint(window)
    modifies packetData, W.Footprint(window)
    ensures W.WindowValid(window)
    ensures (reading, W.WindowModel(window))
         == Read(a, old(packetData[..packetLen]), protocolId, key, allowed, old(W.WindowModel(window)))
    ensures packetData[packetLen..] == old(packetData[packetLen..])
  {
    hide ReadFields, Decrypt;
    var packetType := packetData[0] % 16;
    if packetType == REQUEST || packetType >= NUM_PACKETS {
      return None;
    }
    var packet := new Buffer(packetData);
    var decrypted := DecryptPacket(a, packet, packetLen, protocolId, key, allowed, window);
    if decrypted.None? {
      return None;
    }
    PutKeepsEnd(old(packetData[..]), 1 + old(packetData[0]) / 16, decrypted.value.1, packetLen);
    var p := ReadFieldsFrom(packetType, decrypted.value.1);
    return if p.None? then None else Some((p.value, decrypted.value.0));
  }

  lemma PutKeepsEnd(buffer: bytes, at: nat, s: bytes, end: nat)
    requires at + |s| <= end <= |buffer|
    ensures W.Put(buffer, at, s)[end..] == buffer[end..]
  {
  }

  // ----- the writers -----

  /** writePacketPrefix. */
  method WritePacketPrefix(packetType: nat, packet: Buffer, sequence: uint64) returns (prefix: byte)
    requires packetType < NUM_PACKETS && packet.pos + 1 + SequenceBytes(sequence) <= packet.buf.Length
    modifies packet, packet.buf
    ensures prefix == Prefix(packetType, SequenceBytes(sequence))
    ensures packet.pos == old(packet.pos) + 1 + SequenceBytes(sequence)
    ensures packet.buf[..] == W.Put(old(packet.buf[..]), old(packet.pos),
                                    [prefix] + Encode(SequenceBytes(sequence), sequence))
  {
    var n := W.SequenceNumberBytesRequired(sequence);
    prefix := Prefix(packetType, n);
    hide SequenceBytes, W.Put, Encode;
    W.PutTwice(packet.buf[..], packet.pos, [prefix], Encode(n, sequence));
    packet.WriteUint8(prefix);
    WriteSequence(packet, n, sequence);
  }

  /** The loop over the bytes of the sequence number, low byte first. */
  method WriteSequence(packet: Buffer, n: nat, sequence: uint64)
    requires packet.pos + n <= packet.buf.Length
    modifies packet, packet.buf
    ensures packet.pos == old(packet.pos) + n
    ensures packet.buf[..] == W.Put(old(packet.buf[..]), old(packet.pos), Encode(n, sequence))
  {
    ghost var start := packet.pos;
    ghost var before := packet.buf[..];
    hide W.Put, W.Shifted, Encode;
    W.ShiftNext(sequence, 0);
    W.PutNothing(before, start);
    var rest: nat := sequence;
    var i := 0;
    while i < n
      invariant i <= n && packet.pos == start + i && rest == W.Shifted(sequence, i)
      invariant packet.buf[..] == W.Put(before, start, Encode(i, sequence))
    {
      W.ShiftNext(sequence, i);
      W.PutTwice(before, start, Encode(i, sequence), [rest % 256]);
      packet.WriteUint8(rest % 256);
      rest := rest / 256;
      i := i + 1;
    }
  }

  /** The part of each type's Write method between prefix and encryption. */
  method WriteFields(p: GoPacket, packet: Buffer)
    requires packet.pos + |Body(InC(p))| <= packet.buf.Length
    modifies packet, packet.buf
    ensures packet.pos == old(packet.pos) + |Body(InC(p))|
    ensures packet.buf[..] == W.Put(old(packet.buf[..]), old(packet.pos), Body(InC(p)))
  {
    hide Encode, W.Put;
    W.PutNothing(packet.buf[..], packet.pos);
    match p {
      case GoDenied =>
      case GoChallenge(n, data) => WriteToken(packet, n, data);
      case GoResponse(n, data) => WriteToken(packet, n, data);
      case GoKeepAlive(index, max) =>
        Uint32RoundTrip(index);
        Uint32RoundTrip(max);
        WriteKeepAlive(packet, index, max);
      case GoPayload(data) =>
        assert data[..|data|] == data;
        packet.WriteBytesN(data, |data|);
      case GoDisconnect =>
    }
  }

  method WriteToken(packet: Buffer, sequence: uint64, data: ChallengeData)
    requires packet.pos + 8 + CHALLENGE_TOKEN_BYTES <= packet.buf.Length
    modifies packet, packet.buf
    ensures packet.pos == old(packet.pos) + 8 + CHALLENGE_TOKEN_BYTES
    ensures packet.buf[..] == W.Put(old(packet.buf[..]), old(packet.pos), Encode(8, sequence) + data)
  {
    hide Encode, W.Put;
    W.PutTwice(packet.buf[..], packet.pos, Encode(8, sequence), data);
    packet.WriteUint64(sequence);
    assert data[..CHALLENGE_TOKEN_BYTES] == data;
    packet.WriteBytesN(data, CHALLENGE_TOKEN_BYTES);
  }

  method WriteKeepAlive(packet: Buffer, index: uint32, max: uint32)
    requires packet.pos + 8 <= packet.buf.Length
    modifies packet, packet.buf
    ensures packet.pos == old(packet.pos) + 8
    ensures packet.buf[..] == W.Put(old(packet.buf[..]), old(packet.pos), Encode(4, index) + Encode(4, max))
  {
    hide Encode, W.Put;
    W.PutTwice(packet.buf[..], packet.pos, Encode(4, index), Encode(4, max));
    packet.WriteUint32(index);
    packet.WriteUint32(max);
  }

  /** Write: the same bytes as the C writer.  Encryption in place needs the room for its tag. */
  method WriteTo(a: Aead, p: GoPacket, buf: array<byte>, protocolId: uint64, sequence: uint64, key: Key)
    returns (length: nat)
    requires Lawful(a) && |WritePacket(a, InC(p), sequence, key, protocolId)| <= buf.Length
    modifies buf
    ensures length == |WritePacket(a, InC(p), sequence, key, protocolId)|
    ensures buf[..length] == WritePacket(a, InC(p), sequence, key, protocolId)
    ensures buf[length..] == old(buf[length..])
  {
    ghost var before := buf[..];
    WrittenHeader(a, InC(p), sequence, key, protocolId);
    hide Encode, Body, Prefix, Lawful, SequenceBytes, Nonce, PacketAd, W.Put, TypeOf, InC;
    var packet := new Buffer(buf);
    var prefix := WritePacketPrefix(TypeOf(InC(p)), packet, sequence);
    ghost var h := [prefix] + Encode(SequenceBytes(sequence), sequence);
    ghost var sealed := a.seal(key, Nonce(sequence), PacketAd(protocolId, prefix), Body(InC(p)));
    W.PutTwice(before, 0, h, sealed);
    W.PutPrefix(before, 0, h + sealed);
    WriteEncrypted(a, p, packet, prefix, protocolId, sequence, key);
    return packet.pos;
  }

  /** The fields of the packet, encrypted in place. */
  method WriteEncrypted(a: Aead, p: GoPacket, packet: Buffer, prefix: byte, protocolId: uint64, sequence: uint64,
                        key: Key)
    requires Lawful(a) && packet.pos + |Body(InC(p))| + MAC_BYTES <= packet.buf.Length
    modifies packet, packet.buf
    ensures packet.pos == old(packet.pos) + |Body(InC(p))| + MAC_BYTES
    ensures |a.seal(key, Nonce(sequence), PacketAd(protocolId, prefix), Body(InC(p)))| == |Body(InC(p))| + MAC_BYTES
    ensures packet.buf[..] == W.Put(old(packet.buf[..]), old(packet.pos),
                                    a.seal(key, Nonce(sequence), PacketAd(protocolId, prefix), Body(InC(p))))
  {
    hide Lawful, Nonce, PacketAd, Body, InC;
    ghost var before := packet.buf[..];
    var encryptedStart := packet.pos;
    WriteFields(p, packet);
    var encryptedFinish := packet.pos;
    assert packet.buf[encryptedStart..encryptedFinish] == Body(InC(p));
    EncryptPacket(a, packet, encryptedStart, encryptedFinish, prefix, protocolId, sequence, key);
    W.PutOver(before, encryptedStart, Body(InC(p)),
              a.seal(key, Nonce(sequence), PacketAd(protocolId, prefix), Body(InC(p))));
  }

  /** encryptPacket: seals in place; the tag lands after the text, in the slice's spare room. */
  method EncryptPacket(a: Aead, packet: Buffer, start: nat, finish: nat, prefix: byte, protocolId: uint64,
                       sequence: uint64, key: Key)
    requires Lawful(a) && start <= finish == packet.pos && finish + MAC_BYTES <= packet.buf.Length
    modifies packet, packet.buf
    ensures packet.pos == finish + MAC_BYTES
    ensures |a.seal(key, Nonce(sequence), PacketAd(protocolId, prefix), old(packet.buf[start..finish]))|
         == finish - start + MAC_BYTES
    ensures packet.buf[..] == W.Put(old(packet.buf[..]), start, a.seal(key, Nonce(sequence), PacketAd(protocolId, prefix),
                                                                    old(packet.buf[start..finish])))
  {
    hide Nonce, PacketAd;
    var ad, nonce := PacketCryptData(prefix, protocolId, sequence);
    var sealed := a.seal(key, nonce, ad, packet.buf[start..finish]);
    var target := new Buffer(packet.buf);
    target.pos := start;
    target.WriteBytesN(sealed, |sealed|);
    assert sealed[..|sealed|] == sealed;
    packet.pos := packet.pos + MAC_BYTES;
  }
}
