/** The C codec over byte buffers: values are written and read through a moving pointer, and
    packets are encrypted and decrypted in place. */
module Wire {
  import opened Types
  import opened LittleEndian
  import opened Crypto
  import opened Packets
  import opened ReplayBuffer
  import R = Replay

  /** The buffer with the bytes s written over it at a position. */
  function Put(buffer: bytes, at: nat, s: bytes): (r: bytes)
    requires at + |s| <= |buffer|
    ensures |r| == |buffer| && r[at..at + |s|] == s
  {
    buffer[..at] + s + buffer[at + |s|..]
  }

  lemma PutTwice(buffer: bytes, at: nat, s: bytes, t: bytes)
    requires at + |s| + |t| <= |buffer|
    ensures Put(Put(buffer, at, s), at + |s|, t) == Put(buffer, at, s + t)
  {
  }

  /** What one more byte adds to a little-endian number. */
  lemma {:induction false} EncodeNext(n: nat, v: nat)
    ensures Encode(n + 1, v) == Encode(n, v) + [(v / Pow256(n)) % 256]
  {
    if n > 0 {
      EncodeNext(n - 1, v / 256);
      DivTwice(v, Pow256(n - 1));
    }
  }

  lemma DivTwice(v: nat, p: nat)
    requires p > 0
    ensures (v / 256) / p == v / (256 * p)
  {
    var q := (v / 256) / p;
    var r := (v / 256) % p;
    assert v == 256 * (q * p + r) + v % 256;
    assert 256 * r + v % 256 < 256 * p;
    assert v == q * (256 * p) + (256 * r + v % 256);
    DivUnique(v, 256 * p, q, 256 * r + v % 256);
  }

  lemma DivUnique(v: nat, d: nat, q: nat, r: nat)
    requires d > 0 && v == q * d + r && r < d
    ensures v / d == q
  {
    var k := v / d;
    assert v == k * d + v % d;
    if k < q {
      MulStep(k, q, d);
      assert false;
    }
    if q < k {
      MulStep(q, k, d);
      assert false;
    }
  }

  lemma MulStep(x: nat, y: nat, d: nat)
    requires x < y
    ensures x * d + d <= y * d
  {
    assert (x + 1) * d <= y * d by {
      MulLe(x + 1, y, d);
    }
  }

  lemma MulLe(x: nat, y: nat, d: nat)
    requires x <= y
    ensures x * d <= y * d
  {
  }

  /** v shifted right by i bytes. */
  function Shifted(v: nat, i: nat): int {
    v / Pow256(i)
  }

  /** One turn of a loop that writes a number low byte first. */
  lemma ShiftNext(v: nat, i: nat)
    ensures Encode(0, v) == [] && Shifted(v, 0) == v
    ensures Encode(i + 1, v) == Encode(i, v) + [Shifted(v, i) % 256]
    ensures Shifted(v, i) / 256 == Shifted(v, i + 1)
  {
    EncodeNext(i, v);
    DivTwice2(v, Pow256(i));
  }

  class Cursor {
    const data: array<byte>
    var pos: nat

    constructor (data: array<byte>)
      ensures this.data == data && pos == 0
    {
      this.data := data;
      pos := 0;
    }

    method WriteUint8(v: byte)
      requires pos + 1 <= data.Length
      modifies this, data
      ensures pos == old(pos) + 1 && data[..] == Put(old(data[..]), old(pos), [v])
    {
      data[pos] := v;
      pos := pos + 1;
    }

    /** The low n bytes of v, least significant first: the fixed-width writers and the loop over the
        bytes of a sequence number. */
    method WriteLittleEndian(n: nat, v: nat)
      requires pos + n <= data.Length
      modifies this, data
      ensures pos == old(pos) + n && data[..] == Put(old(data[..]), old(pos), Encode(n, v))
    {
      hide Encode, Shifted, Put;
      ghost var start := pos;
      ghost var before := data[..];
      ShiftNext(v, 0);
      PutNothing(before, start);
      var rest := v;
      var i := 0;
      while i < n
        invariant i <= n && pos == start + i && rest == Shifted(v, i)
        invariant data[..] == Put(before, start, Encode(i, v))
      {
        ShiftNext(v, i);
        PutTwice(before, start, Encode(i, v), [rest % 256]);
        WriteUint8(rest % 256);
        rest := rest / 256;
        i := i + 1;
      }
    }

    method WriteBytes(s: bytes)
      requires pos + |s| <= data.Length
      modifies this, data
      ensures pos == old(pos) + |s| && data[..] == Put(old(data[..]), old(pos), s)
    {
      ghost var start := pos;
      ghost var before := data[..];
      var i := 0;
      while i < |s|
        invariant i <= |s| && pos == start + i
        invariant data[..] == Put(before, start, s[..i])
      {
        PutTwice(before, start, s[..i], [s[i]]);
        assert s[..i + 1] == s[..i] + [s[i]];
        WriteUint8(s[i]);
        i := i + 1;
      }
      assert s[..i] == s;
    }

    method ReadUint8() returns (v: byte)
      requires pos < data.Length
      modifies this
      ensures pos == old(pos) + 1 && v == data[old(pos)]
    {
      v := data[pos];
      pos := pos + 1;
    }

    /** n bytes, least significant first. */
    method ReadLittleEndian(n: nat) returns (v: nat)
      requires pos + n <= data.Length
      modifies this
      ensures pos == old(pos) + n && v == Decode(data[old(pos)..old(pos) + n])
    {
      ghost var start := pos;
      v := 0;
      var unit: nat := 1;
      var i := 0;
      while i < n
        invariant i <= n && pos == start + i && unit == Pow256(i)
        invariant v == Decode(data[start..start + i])
      {
        var b := ReadUint8();
        DecodeNext(data[start..start + i], b);
        assert data[start..start + i + 1] == data[start..start + i] + [b];
        v := v + b * unit;
        unit := 256 * unit;
        i := i + 1;
      }
    }

    method ReadBytes(n: nat) returns (s: bytes)
      requires pos + n <= data.Length
      modifies this
      ensures pos == old(pos) + n && s == data[old(pos)..old(pos) + n]
    {
      ghost var start := pos;
      s := [];
      var i := 0;
      while i < n
        invariant i <= n && pos == start + i && s == data[start..start + i]
      {
        var b := ReadUint8();
        s := s + [b];
        i := i + 1;
      }
    }

    /** Overwrites the bytes from a position on, as encryption and decryption in place do. */
    method Overwrite(at: nat, s: bytes)
      requires at + |s| <= data.Length
      modifies data
      ensures data[..] == Put(old(data[..]), at, s)
    {
      ghost var before := data[..];
      var i := 0;
      while i < |s|
        invariant i <= |s|
        invariant data[..] == Put(before, at, s[..i])
      {
        PutTwice(before, at, s[..i], [s[i]]);
        assert s[..i + 1] == s[..i] + [s[i]];
        data[at + i] := s[i];
        i := i + 1;
      }
      assert s[..i] == s;
    }
  }

  lemma DivTwice2(v: nat, p: nat)
    requires p > 0
    ensures (v / p) / 256 == v / (256 * p)
  {
    var q := (v / p) / 256;
    var r := (v / p) % 256;
    assert v == (q * 256 + r) * p + v % p;
    assert v == q * (256 * p) + (r * p + v % p);
    assert r * p <= 255 * p by { MulLe(r, 255, p); }
    DivUnique(v, 256 * p, q, r * p + v % p);
  }

  lemma {:induction false} DecodeNext(s: bytes, b: byte)
    ensures Decode(s + [b]) == Decode(s) + b * Pow256(|s|)
  {
    if s == [] {
      assert s + [b] == [b] && [b][1..] == [];
    } else {
      assert (s + [b])[1..] == s[1..] + [b];
      DecodeNext(s[1..], b);
      assert 256 * (b * Pow256(|s| - 1)) == b * Pow256(|s|);
    }
  }

  // ----- the sequence number -----

  /** netcode_sequence_number_bytes_required: a mask over one byte moves down from the top byte
      until it meets a byte that is not zero.  `unit` is the mask divided by 0xFF. */
  method SequenceNumberBytesRequired(sequence: uint64) returns (n: nat)
    ensures n == SequenceBytes(sequence)
  {
    PowValues();
    var unit := 0x100_0000_0000_0000;
    var i := 0;
    while i < 7
      invariant i <= 7 && unit == Pow256(7 - i) && sequence < Pow256(8 - i)
    {
      if (sequence / unit) % 256 != 0 {
        break;
      }
      TopByteZero(sequence, 7 - i);
      unit := unit / 256;
      i := i + 1;
    }
    if i < 7 {
      TopByteNonZero(sequence, 7 - i);
    }
    n := 8 - i;
    SequenceBytesLeast(sequence, n);
    if n > 1 {
      SequenceBytesLeast(sequence, n - 1);
    }
  }

  lemma TopByteZero(v: nat, k: nat)
    requires v < Pow256(k + 1) && (v / Pow256(k)) % 256 == 0
    ensures v < Pow256(k)
  {
    var p := Pow256(k);
    var q := v / p;
    assert v == q * p + v % p;
    if q >= 256 {
      MulLe(256, q, p);
      assert false;
    }
  }

  lemma TopByteNonZero(v: nat, k: nat)
    requires (v / Pow256(k)) % 256 != 0
    ensures v >= Pow256(k)
  {
    if v < Pow256(k) {
      assert v / Pow256(k) == 0 by { DivUnique(v, Pow256(k), 0, v); }
    }
  }

  // ----- packets -----

  lemma PutNothing(buffer: bytes, at: nat)
    requires at <= |buffer|
    ensures Put(buffer, at, []) == buffer
  {
  }

  /** The bytes before a position, once those bytes were put there. */
  lemma PutPrefix(buffer: bytes, at: nat, s: bytes)
    requires at + |s| <= |buffer|
    ensures Put(buffer, at, s)[..at + |s|] == buffer[..at] + s
    ensures Put(buffer, at, s)[at + |s|..] == buffer[at + |s|..]
  {
  }

  /** Ciphertext over the plain text it was made from. */
  lemma PutOver(buffer: bytes, at: nat, body: bytes, sealed: bytes)
    requires at + |body| <= at + |sealed| <= |buffer|
    ensures Put(Put(buffer, at, body), at, sealed) == Put(buffer, at, sealed)
  {
  }

  /** The data of a challenge or a response. */
  method WriteTokenBody(c: Cursor, sequence: uint64, data: ChallengeData)
    requires c.pos + 8 + CHALLENGE_TOKEN_BYTES <= c.data.Length
    modifies c, c.data
    ensures c.pos == old(c.pos) + 8 + CHALLENGE_TOKEN_BYTES
    ensures c.data[..] == Put(old(c.data[..]), old(c.pos), Encode(8, sequence) + data)
  {
    hide Encode, Put;
    PutTwice(c.data[..], c.pos, Encode(8, sequence), data);
    c.WriteLittleEndian(8, sequence);
    c.WriteBytes(data);
  }

  method WriteKeepAliveBody(c: Cursor, index: uint32, max: uint32)
    requires c.pos + 8 <= c.data.Length
    modifies c, c.data
    ensures c.pos == old(c.pos) + 8
    ensures c.data[..] == Put(old(c.data[..]), old(c.pos), Encode(4, index) + Encode(4, max))
  {
    hide Encode, Put;
    PutTwice(c.data[..], c.pos, Encode(4, index), Encode(4, max));
    c.WriteLittleEndian(4, index);
    c.WriteLittleEndian(4, max);
  }

  method WriteBody(c: Cursor, p: Packet)
    requires !p.Request? && c.pos + |Body(p)| <= c.data.Length
    modifies c, c.data
    ensures c.pos == old(c.pos) + |Body(p)| && c.data[..] == Put(old(c.data[..]), old(c.pos), Body(p))
  {
    hide Encode, Put;
    PutNothing(c.data[..], c.pos);
    match p {
      case Denied =>
      case Challenge(n, data) => WriteTokenBody(c, n, data);
      case Response(n, data) => WriteTokenBody(c, n, data);
      case KeepAlive(index, max) => WriteKeepAliveBody(c, ToUint32(index), ToUint32(max));
      case Payload(data) => c.WriteBytes(data);
      case Disconnect =>
    }
  }

  method WriteRequest(c: Cursor, p: Packet)
    requires p.Request? && c.pos + REQUEST_BYTES <= c.data.Length
    modifies c, c.data
    ensures c.pos == old(c.pos) + REQUEST_BYTES
    ensures c.data[..] == Put(old(c.data[..]), old(c.pos),
                              [0] + p.version + Encode(8, p.protocolId) + Encode(8, p.expireTimestamp)
                              + Encode(8, p.tokenSequence) + p.tokenData)
  {
    hide Encode;
    ghost var before := c.data[..];
    ghost var start := c.pos;
    c.WriteUint8(0);
    PutTwice(before, start, [0], p.version);
    c.WriteBytes(p.version);
    ghost var s1 := [0] + p.version;
    PutTwice(before, start, s1, Encode(8, p.protocolId));
    c.WriteLittleEndian(8, p.protocolId);
    ghost var s2 := s1 + Encode(8, p.protocolId);
    PutTwice(before, start, s2, Encode(8, p.expireTimestamp));
    c.WriteLittleEndian(8, p.expireTimestamp);
    ghost var s3 := s2 + Encode(8, p.expireTimestamp);
    PutTwice(before, start, s3, Encode(8, p.tokenSequence));
    c.WriteLittleEndian(8, p.tokenSequence);
    ghost var s4 := s3 + Encode(8, p.tokenSequence);
    PutTwice(before, start, s4, p.tokenData);
    c.WriteBytes(p.tokenData);
  }

  /** netcode_write_packet: writes the packet to the start of the buffer and encrypts it there. */
  method WritePacketTo(a: Aead, p: Packet, buffer: array<byte>, sequence: uint64, key: Key, protocolId: uint64)
    returns (length: nat)
    requires Lawful(a) && |WritePacket(a, p, sequence, key, protocolId)| <= buffer.Length
    modifies buffer
    ensures length == |WritePacket(a, p, sequence, key, protocolId)|
    ensures buffer[..length] == WritePacket(a, p, sequence, key, protocolId)
    ensures buffer[length..] == old(buffer[length..])
  {
    if p.Request? {
      RequestLayout(a, p, sequence, key, protocolId);
      var c := new Cursor(buffer);
      PutPrefix(buffer[..], 0, WritePacket(a, p, sequence, key, protocolId));
      WriteRequest(c, p);
      return c.pos;
    }
    length := WriteSealedTo(a, p, buffer, sequence, key, protocolId);
  }

  /** The branch for encrypted packets. */
  lemma SealedShape(a: Aead, p: Packet, sequence: uint64, key: Key, protocolId: uint64)
    requires !p.Request?
    ensures var n := SequenceBytes(sequence);
            var prefix := Prefix(TypeOf(p), n);
            WritePacket(a, p, sequence, key, protocolId)
            == [prefix] + Encode(n, sequence) + a.seal(key, Nonce(sequence), PacketAd(protocolId, prefix), Body(p))
  {
  }

  method WriteSealedTo(a: Aead, p: Packet, buffer: array<byte>, sequence: uint64, key: Key, protocolId: uint64)
    returns (length: nat)
    requires Lawful(a) && !p.Request? && |WritePacket(a, p, sequence, key, protocolId)| <= buffer.Length
    modifies buffer
    ensures length == |WritePacket(a, p, sequence, key, protocolId)|
    ensures buffer[..length] == WritePacket(a, p, sequence, key, protocolId)
    ensures buffer[length..] == old(buffer[length..])
  {
    ghost var before := buffer[..];
    var c := new Cursor(buffer);
    WrittenHeader(a, p, sequence, key, protocolId);
    var n := SequenceNumberBytesRequired(sequence);
    var prefix := Prefix(TypeOf(p), n);
    SealedShape(a, p, sequence, key, protocolId);
    hide Encode, Body, Prefix, Lawful, SequenceBytes, Nonce, PacketAd, Put, TypeOf, WritePacket;
    ghost var sealed := a.seal(key, Nonce(sequence), PacketAd(protocolId, prefix), Body(p));
    ghost var header := [prefix] + Encode(n, sequence);
    c.WriteUint8(prefix);
    c.WriteLittleEndian(n, sequence);
    PutTwice(before, 0, [prefix], Encode(n, sequence));
    assert buffer[..] == Put(before, 0, header) && c.pos == |header|;
    WriteEncrypted(a, p, c, Nonce(sequence), PacketAd(protocolId, prefix), key);
    PutTwice(before, 0, header, sealed);
    assert buffer[..] == Put(before, 0, header + sealed);
    PutPrefix(before, 0, header + sealed);
    return c.pos;
  }

  /** Writes the packet data at the cursor and encrypts it there. */
  method WriteEncrypted(a: Aead, p: Packet, c: Cursor, nonce: bytes, ad: bytes, key: Key)
    requires Lawful(a) && !p.Request? && c.pos + |Body(p)| + MAC_BYTES <= c.data.Length
    modifies c, c.data
    ensures |a.seal(key, nonce, ad, Body(p))| == |Body(p)| + MAC_BYTES
    ensures c.pos == old(c.pos) + |Body(p)| + MAC_BYTES
    ensures c.data[..] == Put(old(c.data[..]), old(c.pos), a.seal(key, nonce, ad, Body(p)))
  {
    ghost var before := c.data[..];
    var start := c.pos;
    WriteBody(c, p);
    var finish := c.pos;
    assert c.data[start..finish] == Body(p);
    var sealed := a.seal(key, nonce, ad, c.data[start..finish]);
    PutOver(before, start, Body(p), sealed);
    c.Overwrite(start, sealed);
    c.pos := finish + MAC_BYTES;
  }

  // ----- reading -----

  ghost function Footprint(window: ReplayProtection?): set<object> {
    if window == null then {} else {window, window.receivedPacket}
  }

  ghost predicate WindowValid(window: ReplayProtection?)
    reads Footprint(window)
  {
    window != null ==> window.Valid()
  }

  ghost function WindowModel(window: ReplayProtection?): Option<R.Window>
    requires WindowValid(window)
    reads Footprint(window)
  {
    if window == null then None else Some(window.Model())
  }

  /** Decryption in place: on success the plain text replaces the start of the cipher text. */
  method DecryptAt(a: Aead, buffer: array<byte>, at: nat, length: nat, key: Key, nonce: bytes, ad: bytes)
    returns (plain: Option<bytes>)
    requires Lawful(a) && at <= length <= buffer.Length
    modifies buffer
    ensures plain == a.open(key, nonce, ad, old(buffer[at..length]))
    ensures plain.Some? ==> length - at == |plain.value| + MAC_BYTES
    ensures buffer[..] == if plain.None? then old(buffer[..]) else Put(old(buffer[..]), at, plain.value)
  {
    plain := a.open(key, nonce, ad, buffer[at..length]);
    if plain.Some? {
      var c := new Cursor(buffer);
      c.Overwrite(at, plain.value);
    }
  }

  lemma SliceOfSlice(s: bytes, i: nat, j: nat, k: nat)
    requires i + k <= j <= |s|
    ensures s[i..j][..k] == s[i..i + k] && s[i..j][k..] == s[i + k..j]
  {
  }

  /** Opens the private token at the cursor, in place: plain text, then the tag as it was sent. */
  method OpenToken(a: Aead, c: Cursor, key: Key, nonce: bytes, ad: bytes) returns (r: Option<PrivateData>)
    requires Lawful(a) && c.pos + CONNECT_TOKEN_PRIVATE_BYTES <= c.data.Length
    modifies c, c.data
    ensures var plain := OpenInPlace(a, key, nonce, ad, old(c.data[c.pos..c.pos + CONNECT_TOKEN_PRIVATE_BYTES]));
            && (r.None? <==> plain.None?)
            && (r.Some? ==> r.value == plain.value)
  {
    hide Lawful;
    ghost var before := c.data[..];
    var at := c.pos;
    var end := at + CONNECT_TOKEN_PRIVATE_BYTES;
    var plain := DecryptAt(a, c.data, at, end, key, nonce, ad);
    if plain.None? {
      return None;
    }
    SliceOfSlice(before, at, end, |plain.value|);
    PutPrefix(before, at, plain.value);
    var data := c.ReadBytes(CONNECT_TOKEN_PRIVATE_BYTES);
    assert data == plain.value + before[at + |plain.value|..end];
    return Some(data);
  }

  /** The branch for a zero prefix byte, with the cursor just after it. */
  method ReadRequestFrom(a: Aead, c: Cursor, length: nat, protocolId: uint64, now: uint64, privateKey: Option<Key>,
                         allowed: set<nat>) returns (r: Option<Packet>)
    requires Lawful(a) && c.pos == 1 && 1 <= length <= c.data.Length
    modifies c, c.data
    ensures r == ReadRequest(a, old(c.data[..length]), protocolId, now, privateKey, allowed)
  {
    hide Lawful, OpenInPlace, Nonce, Encode, Decode;
    ghost var s := c.data[..length];
    if REQUEST !in allowed || length != REQUEST_BYTES || privateKey.None? {
      return None;
    }
    var version := c.ReadBytes(13);
    assert version == s[1..14];
    if version != VERSION_INFO {
      return None;
    }
    PowValues();
    SliceOfSlice(s, 14, length, 8);
    SliceOfSlice(s, 22, length, 8);
    SliceOfSlice(s, 30, length, 8);
    assert s[14..22] == c.data[14..22] && s[22..30] == c.data[22..30] && s[30..38] == c.data[30..38];
    assert s[38..] == c.data[38..38 + CONNECT_TOKEN_PRIVATE_BYTES];
    assert s[14..] == s[14..length] && s[22..] == s[22..length] && s[30..] == s[30..length];
    var id := c.ReadLittleEndian(8);
    ReadU64Is(s[14..], id);
    if id != protocolId {
      return None;
    }
    var expire := c.ReadLittleEndian(8);
    ReadU64Is(s[22..], expire);
    if expire <= now {
      return None;
    }
    var tokenSequence := c.ReadLittleEndian(8);
    ReadU64Is(s[30..], tokenSequence);
    var data := OpenToken(a, c, privateKey.value, Nonce(tokenSequence),
                          VERSION_INFO + Encode(8, protocolId) + Encode(8, expire));
    return if data.None? then None
      else Some(Request(VERSION_INFO, protocolId, expire, tokenSequence, data.value));
  }

  lemma ReadU64Is(s: bytes, v: nat)
    requires |s| >= 8 && v == Decode(s[..8])
    ensures ReadU64(s) == v
  {
  }

  /** The switch on the packet type, reading n decrypted bytes at the cursor. */
  method ReadBodyFrom(c: Cursor, packetType: nat, n: nat) returns (r: Option<Packet>)
    requires c.pos + n <= c.data.Length
    modifies c
    ensures r == ReadBody(packetType, old(c.data[c.pos..c.pos + n]))
  {
    hide Decode;
    ghost var all := c.data[..];
    ghost var start := c.pos;
    ghost var body := all[start..start + n];
    PowValues();
    if packetType == DENIED && n == 0 {
      return Some(Denied);
    }
    if (packetType == CHALLENGE || packetType == RESPONSE) && n == 8 + CHALLENGE_TOKEN_BYTES {
      SliceOfSlice(all, start, start + n, 8);
      var sequence := c.ReadLittleEndian(8);
      ReadU64Is(body, sequence);
      var data := c.ReadBytes(CHALLENGE_TOKEN_BYTES);
      return Some(if packetType == CHALLENGE then Challenge(sequence, data) else Response(sequence, data));
    }
    if packetType == KEEP_ALIVE && n == 8 {
      SliceOfSlice(all, start, start + n, 4);
      var index := c.ReadLittleEndian(4);
      var max := c.ReadLittleEndian(4);
      assert body[4..][..4] == all[start + 4..start + 8];
      ReadU32Is(body, index);
      ReadU32Is(body[4..], max);
      return Some(KeepAlive(ToInt32(index), ToInt32(max)));
    }
    if packetType == PAYLOAD && 1 <= n <= MAX_PAYLOAD_BYTES {
      var data := c.ReadBytes(n);
      return Some(Payload(data));
    }
    if packetType == DISCONNECT && n == 0 {
      return Some(Disconnect);
    }
    return None;
  }

  lemma ReadU32Is(s: bytes, v: nat)
    requires |s| >= 4 && v == Decode(s[..4])
    ensures ReadU32(s) == v
  {
  }

  /** The replay filter, when the caller supplies a window. */
  method FilterWith(window: ReplayProtection?, packetType: nat, sequence: uint64) returns (received: bool)
    requires WindowValid(window)
    modifies Footprint(window)
    ensures WindowValid(window)
    ensures (received, WindowModel(window)) == Filter(old(WindowModel(window)), packetType, sequence)
  {
    received := false;
    if window != null && packetType >= KEEP_ALIVE {
      received := window.AlreadyReceived(sequence);
    }
  }

  /** Decrypts the rest of the buffer at the cursor and reads the packet it holds. */
  method OpenBody(a: Aead, c: Cursor, length: nat, packetType: nat, sequence: uint64, key: Key, ad: bytes)
    returns (p: Option<Packet>)
    requires Lawful(a) && c.pos + MAC_BYTES <= length <= c.data.Length
    modifies c, c.data
    ensures var plain := a.open(key, Nonce(sequence), ad, old(c.data[c.pos..length]));
            p == if plain.None? then None else ReadBody(packetType, plain.value)
  {
    hide ReadBody, Lawful, Nonce;
    var plain := DecryptAt(a, c.data, c.pos, length, key, Nonce(sequence), ad);
    if plain.None? {
      return None;
    }
    p := ReadBodyFrom(c, packetType, length - c.pos - MAC_BYTES);
  }

  /** The branch for encrypted packets, with the cursor just after the prefix byte. */
  method ReadSealedFrom(a: Aead, c: Cursor, length: nat, key: Option<Key>, protocolId: uint64, allowed: set<nat>,
                        window: ReplayProtection?) returns (reading: Reading)
    requires Lawful(a) && c.pos == 1 <= length <= c.data.Length && WindowValid(window)
    requires c !in Footprint(window) && c.data !in Footprint(window)
    modifies c, c.data, Footprint(window)
    ensures WindowValid(window)
    ensures (reading, WindowModel(window))
         == ReadSealed(a, old(c.data[..length]), key, protocolId, allowed, old(WindowModel(window)))
  {
    hide ReadBody, Lawful, Filter, Nonce, PacketAd;
    ghost var s := c.data[..length];
    if key.None? || length < 1 + 1 + MAC_BYTES {
      return None;
    }
    var prefix := c.data[0];
    var packetType := prefix % 16;
    if packetType >= NUM_PACKETS || packetType !in allowed {
      return None;
    }
    var n := prefix / 16;
    if n < 1 || n > 8 || length < 1 + n + MAC_BYTES {
      return None;
    }
    PowValues();
    PowMonotone(n, 8);
    assert s[1..1 + n] == c.data[1..1 + n];
    assert s[1 + n..] == c.data[1 + n..length];
    var sequence := c.ReadLittleEndian(n);
    var received := FilterWith(window, packetType, sequence);
    if received {
      return None;
    }
    var p := OpenBody(a, c, length, packetType, sequence, key.value, PacketAd(protocolId, prefix));
    return if p.None? then None else Some((p.value, sequence));
  }

  /** netcode_read_packet: checks, sequence, replay filter, decryption in place, packet data. */
  method ReadPacketFrom(a: Aead, buffer: array<byte>, length: nat, key: Option<Key>, protocolId: uint64, now: uint64,
                        privateKey: Option<Key>, allowed: set<nat>, window: ReplayProtection?) returns (reading: Reading)
    requires Lawful(a) && length <= buffer.Length && WindowValid(window) && buffer !in Footprint(window)
    modifies buffer, Footprint(window)
    ensures WindowValid(window)
    ensures (reading, WindowModel(window))
         == ReadPacket(a, old(buffer[..length]), key, protocolId, now, privateKey, allowed, old(WindowModel(window)))
  {
    hide ReadRequest, ReadSealed, Lawful;
    if length < 1 {
      return None;
    }
    var c := new Cursor(buffer);
    var prefix := c.ReadUint8();
    if prefix == 0 {
      var p := ReadRequestFrom(a, c, length, protocolId, now, privateKey, allowed);
      return if p.None? then None else Some((p.value, 0));
    }
    reading := ReadSealedFrom(a, c, length, key, protocolId, allowed, window);
  }
}
