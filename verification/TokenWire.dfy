/** The token writers and readers over byte buffers, moving a pointer as the source does. */
module TokenWire {
  import opened Types
  import opened LittleEndian
  import opened Tokens
  import opened Wire

  // ----- addresses -----

  lemma {:induction false} WriteWordsAppend(w: seq<uint16>, x: uint16)
    ensures WriteWords(w + [x]) == WriteWords(w) + Encode(2, x)
  {
    hide Encode;
    if w == [] {
      assert (w + [x])[1..] == [];
    } else {
      assert (w + [x])[1..] == w[1..] + [x];
      WriteWordsAppend(w[1..], x);
    }
  }

  lemma {:induction false} WriteServersAppend(servers: seq<Address>, a: Address)
    requires Writable(servers) && a != NoAddress
    ensures Writable(servers + [a])
    ensures WriteServers(servers + [a]) == WriteServers(servers) + WriteAddress(a)
  {
    hide WriteAddress;
    if servers == [] {
      assert (servers + [a])[1..] == [];
    } else {
      assert (servers + [a])[1..] == servers[1..] + [a];
      WriteServersAppend(servers[1..], a);
    }
  }

  method WriteIPv4To(c: Cursor, a: Address)
    requires a.IPv4? && c.pos + 7 <= c.data.Length
    modifies c, c.data
    ensures c.pos == old(c.pos) + |WriteAddress(a)| && c.data[..] == Put(old(c.data[..]), old(c.pos), WriteAddress(a))
  {
    hide Encode, Put;
    ghost var start := c.pos;
    ghost var before := c.data[..];
    var head: bytes := [1, a.a, a.b, a.c, a.d];
    PutTwice(before, start, head, Encode(2, a.port4));
    c.WriteBytes(head);
    c.WriteLittleEndian(2, a.port4);
  }

  method WriteIPv6To(c: Cursor, a: Address)
    requires a.IPv6? && c.pos + ADDRESS_BYTES <= c.data.Length
    modifies c, c.data
    ensures c.pos == old(c.pos) + |WriteAddress(a)| && c.data[..] == Put(old(c.data[..]), old(c.pos), WriteAddress(a))
  {
    hide Encode, Put;
    ghost var start := c.pos;
    ghost var before := c.data[..];
    c.WriteUint8(2);
    assert [2] + WriteWords(a.words[..0]) == [2];
    var j := 0;
    while j < 8
      invariant j <= 8 && c.pos == start + 1 + 2 * j
      invariant c.data[..] == Put(before, start, [2] + WriteWords(a.words[..j]))
    {
      PutTwice(before, start, [2] + WriteWords(a.words[..j]), Encode(2, a.words[j]));
      WriteWordsAppend(a.words[..j], a.words[j]);
      assert a.words[..j + 1] == a.words[..j] + [a.words[j]];
      Regroup([2], WriteWords(a.words[..j]), Encode(2, a.words[j]));
      c.WriteLittleEndian(2, a.words[j]);
      j := j + 1;
    }
    assert a.words[..8] == a.words;
    PutTwice(before, start, [2] + WriteWords(a.words), Encode(2, a.port6));
    c.WriteLittleEndian(2, a.port6);
  }

  method WriteServersTo(c: Cursor, servers: seq<Address>)
    requires Writable(servers) && c.pos + ADDRESS_BYTES * |servers| <= c.data.Length
    modifies c, c.data
    ensures c.pos == old(c.pos) + |WriteServers(servers)|
    ensures c.data[..] == Put(old(c.data[..]), old(c.pos), WriteServers(servers))
  {
    hide WriteAddress, Put;
    ghost var start := c.pos;
    ghost var before := c.data[..];
    PutNothing(before, start);
    var i := 0;
    while i < |servers|
      invariant i <= |servers| && Writable(servers[..i])
      invariant c.pos == start + |WriteServers(servers[..i])|
      invariant c.data[..] == Put(before, start, WriteServers(servers[..i]))
    {
      assert servers[..i + 1] == servers[..i] + [servers[i]];
      WriteServersAppend(servers[..i], servers[i]);
      PutTwice(before, start, WriteServers(servers[..i]), WriteAddress(servers[i]));
      if servers[i].IPv4? {
        WriteIPv4To(c, servers[i]);
      } else {
        WriteIPv6To(c, servers[i]);
      }
      i := i + 1;
    }
    assert servers[..i] == servers;
  }

  /** An address read, with nothing said of the position when it is refused. */
  ghost predicate ReadsAddress(s: bytes, r: Option<Address>, rest: bytes)
    requires |s| >= ADDRESS_BYTES
  {
    ReadAddress(s) == if r.None? then None else Some((r.value, rest))
  }

  lemma {:induction false} ReadWordsAppend(n: nat, s: bytes)
    requires |s| >= 2 * n + 2
    ensures ReadWords(n + 1, s) == ReadWords(n, s) + [ReadU16(s[2 * n..])]
  {
    if n > 0 {
      ReadWordsAppend(n - 1, s[2..]);
      assert s[2..][2 * (n - 1)..] == s[2 * n..];
    }
  }

  method ReadAddressFrom(c: Cursor) returns (r: Option<Address>)
    requires c.pos + ADDRESS_BYTES <= c.data.Length
    modifies c
    ensures c.pos <= c.data.Length && ReadsAddress(old(c.data[c.pos..]), r, c.data[c.pos..])
  {
    hide Decode;
    PowValues();
    ghost var start := c.pos;
    ghost var s := c.data[start..];
    var kind := c.ReadUint8();
    if kind == 1 {
      var a := c.ReadUint8();
      var b := c.ReadUint8();
      var x := c.ReadUint8();
      var y := c.ReadUint8();
      var port := c.ReadLittleEndian(2);
      assert s[5..][..2] == c.data[start + 5..start + 7];
      return Some(IPv4(a, b, x, y, port));
    }
    if kind == 2 {
      var words := ReadWordsFrom(c, 8);
      assert s[1..] == c.data[start + 1..];
      var port := c.ReadLittleEndian(2);
      assert s[17..][..2] == c.data[start + 17..start + 19];
      return Some(IPv6(words, port));
    }
    return None;
  }

  method ReadWordsFrom(c: Cursor, n: nat) returns (words: seq<uint16>)
    requires c.pos + 2 * n <= c.data.Length
    modifies c
    ensures c.pos == old(c.pos) + 2 * n && words == ReadWords(n, c.data[old(c.pos)..])
  {
    hide Decode;
    PowValues();
    ghost var s := c.data[c.pos..];
    ghost var start := c.pos;
    words := [];
    var j := 0;
    while j < n
      invariant j <= n && c.pos == start + 2 * j && words == ReadWords(j, s)
    {
      assert s[2 * j..][..2] == c.data[start + 2 * j..start + 2 * j + 2];
      ReadWordsAppend(j, s);
      var word := c.ReadLittleEndian(2);
      words := words + [word];
      j := j + 1;
    }
  }

  /** Servers read one after the other; none at all if one has a type that is not known. */
  method ReadServersFrom(c: Cursor, n: nat) returns (r: Option<seq<Address>>)
    requires c.pos + ADDRESS_BYTES * n <= c.data.Length
    modifies c
    ensures c.pos <= c.data.Length
    ensures ReadServers(n, old(c.data[c.pos..])) == if r.None? then None else Some((r.value, c.data[c.pos..]))
  {
    hide ReadAddress;
    ghost var s := c.data[c.pos..];
    var servers: seq<Address> := [];
    PrependNothing(ReadServers(n, s));
    var i := 0;
    while i < n
      invariant i <= n && c.pos + ADDRESS_BYTES * (n - i) <= c.data.Length
      invariant ReadServers(n, s) == Prepend(servers, ReadServers(n - i, c.data[c.pos..]))
    {
      ghost var rest := c.data[c.pos..];
      var a := ReadAddressFrom(c);
      if a.None? {
        return None;
      }
      PrependStep(servers, a.value, ReadServers(n - i - 1, c.data[c.pos..]));
      assert ReadServers(n - i, rest) == Prepend([a.value], ReadServers(n - i - 1, c.data[c.pos..]));
      servers := servers + [a.value];
      i := i + 1;
    }
    assert i == n && servers + [] == servers;
    return Some(servers);
  }

  ghost function Prepend(servers: seq<Address>, r: Option<(seq<Address>, bytes)>): Option<(seq<Address>, bytes)> {
    if r.None? then None else Some((servers + r.value.0, r.value.1))
  }

  lemma PrependNothing(r: Option<(seq<Address>, bytes)>)
    ensures Prepend([], r) == r
  {
    if r.Some? {
      assert [] + r.value.0 == r.value.0;
    }
  }

  lemma PrependStep(servers: seq<Address>, a: Address, r: Option<(seq<Address>, bytes)>)
    ensures Prepend(servers, Prepend([a], r)) == Prepend(servers + [a], r)
  {
    if r.Some? {
      assert servers + ([a] + r.value.0) == servers + [a] + r.value.0;
    }
  }

  // ----- private connect tokens -----

  method WriteZeros(c: Cursor, n: nat)
    requires c.pos + n <= c.data.Length
    modifies c.data
    ensures c.data[..] == Put(old(c.data[..]), c.pos, Zeros(n))
  {
    c.Overwrite(c.pos, Zeros(n));
  }

  method WritePrivateHeaderTo(c: Cursor, t: PrivateToken)
    requires t.WellFormed() && c.pos + 16 <= c.data.Length
    modifies c, c.data
    ensures c.pos == old(c.pos) + 16 && c.data[..] == Put(old(c.data[..]), old(c.pos), PrivateHeader(t))
  {
    hide Encode, Put;
    ghost var start := c.pos;
    ghost var before := c.data[..];
    PutTwice(before, start, Encode(8, t.clientId), Encode(4, ToUint32(t.timeoutSeconds)));
    PutTwice(before, start, Encode(8, t.clientId) + Encode(4, ToUint32(t.timeoutSeconds)), Encode(4, |t.servers|));
    c.WriteLittleEndian(8, t.clientId);
    c.WriteLittleEndian(4, ToUint32(t.timeoutSeconds));
    c.WriteLittleEndian(4, |t.servers|);
  }

  method WritePrivateKeysTo(c: Cursor, t: PrivateToken)
    requires c.pos + 320 <= c.data.Length
    modifies c, c.data
    ensures c.pos == old(c.pos) + 320 && c.data[..] == Put(old(c.data[..]), old(c.pos), PrivateKeys(t))
  {
    hide Put;
    ghost var start := c.pos;
    ghost var before := c.data[..];
    PutTwice(before, start, t.clientToServerKey, t.serverToClientKey);
    PutTwice(before, start, t.clientToServerKey + t.serverToClientKey, t.userData);
    c.WriteBytes(t.clientToServerKey);
    c.WriteBytes(t.serverToClientKey);
    c.WriteBytes(t.userData);
  }

  /** netcode_write_connect_token_private: the fields, then zeros to the end of the 1024 bytes. */
  method WritePrivateTo(t: PrivateToken, buffer: array<byte>)
    requires t.WellFormed() && buffer.Length >= CONNECT_TOKEN_PRIVATE_BYTES
    modifies buffer
    ensures buffer[..CONNECT_TOKEN_PRIVATE_BYTES] == WritePrivate(t)
    ensures buffer[CONNECT_TOKEN_PRIVATE_BYTES..] == old(buffer[CONNECT_TOKEN_PRIVATE_BYTES..])
  {
    hide PrivateHeader, PrivateKeys, WriteServers, Put;
    ghost var before := buffer[..];
    var c := new Cursor(buffer);
    PutTwice(before, 0, PrivateHeader(t), WriteServers(t.servers));
    PutTwice(before, 0, PrivateHeader(t) + WriteServers(t.servers), PrivateKeys(t));
    PutTwice(before, 0, PrivateBody(t), Zeros(CONNECT_TOKEN_PRIVATE_BYTES - |PrivateBody(t)|));
    WritePrivateHeaderTo(c, t);
    WriteServersTo(c, t.servers);
    WritePrivateKeysTo(c, t);
    WriteZeros(c, CONNECT_TOKEN_PRIVATE_BYTES - c.pos);
    PutPrefix(before, 0, WritePrivate(t));
  }

  lemma SuffixSlice(s: bytes, i: nat, k: nat)
    requires i + k <= |s|
    ensures s[i..][..k] == s[i..i + k] && s[i..][k..] == s[i + k..]
  {
  }

  method ReadUint64(c: Cursor) returns (v: uint64)
    requires c.pos + 8 <= c.data.Length
    modifies c
    ensures c.pos == old(c.pos) + 8 && v == ReadU64(c.data[old(c.pos)..])
  {
    PowValues();
    SuffixSlice(c.data[..], c.pos, 8);
    v := c.ReadLittleEndian(8);
    ReadU64Is(c.data[old(c.pos)..], v);
  }

  method ReadUint32(c: Cursor) returns (v: uint32)
    requires c.pos + 4 <= c.data.Length
    modifies c
    ensures c.pos == old(c.pos) + 4 && v == ReadU32(c.data[old(c.pos)..])
  {
    PowValues();
    SuffixSlice(c.data[..], c.pos, 4);
    v := c.ReadLittleEndian(4);
    ReadU32Is(c.data[old(c.pos)..], v);
  }

  method ReadPrivateKeysFrom(c: Cursor) returns (clientToServer: Key, serverToClient: Key, userData: UserData)
    requires c.pos + 320 <= c.data.Length
    modifies c
    ensures var rest := c.data[old(c.pos)..];
            clientToServer == rest[..32] && serverToClient == rest[32..64] && userData == rest[64..320]
  {
    clientToServer := c.ReadBytes(KEY_BYTES);
    serverToClient := c.ReadBytes(KEY_BYTES);
    userData := c.ReadBytes(USER_DATA_BYTES);
  }

  /** netcode_read_connect_token_private. */
  method ReadPrivateFrom(buffer: array<byte>) returns (r: Option<PrivateToken>)
    ensures r == ReadPrivate(buffer[..])
  {
    if buffer.Length < CONNECT_TOKEN_PRIVATE_BYTES {
      return None;
    }
    hide ReadServers, ReadU64, ReadU32;
    var c := new Cursor(buffer);
    assert buffer[0..] == buffer[..];
    var clientId := ReadUint64(c);
    var timeout := ReadUint32(c);
    var count := ReadUint32(c);
    assert buffer[8..] == buffer[..][8..] && buffer[12..] == buffer[..][12..] && buffer[16..] == buffer[..][16..];
    var n := ToInt32(count);
    if n <= 0 || n > MAX_SERVERS_PER_CONNECT {
      return None;
    }
    var servers := ReadServersFrom(c, n);
    if servers.None? {
      return None;
    }
    var clientToServer, serverToClient, userData := ReadPrivateKeysFrom(c);
    return Some(PrivateToken(clientId, ToInt32(timeout), servers.value, clientToServer, serverToClient, userData));
  }

  // ----- public connect tokens -----

  method WriteConnectStampTo(c: Cursor, t: ConnectToken)
    requires c.pos + 45 <= c.data.Length
    modifies c, c.data
    ensures c.pos == old(c.pos) + 45 && c.data[..] == Put(old(c.data[..]), old(c.pos), ConnectStamp(t))
  {
    hide Encode, Put;
    ghost var start := c.pos;
    ghost var before := c.data[..];
    ghost var s1 := t.version + Encode(8, t.protocolId);
    ghost var s2 := s1 + Encode(8, t.createTimestamp);
    ghost var s3 := s2 + Encode(8, t.expireTimestamp);
    PutTwice(before, start, t.version, Encode(8, t.protocolId));
    PutTwice(before, start, s1, Encode(8, t.createTimestamp));
    PutTwice(before, start, s2, Encode(8, t.expireTimestamp));
    PutTwice(before, start, s3, Encode(8, t.sequence));
    c.WriteBytes(t.version);
    c.WriteLittleEndian(8, t.protocolId);
    c.WriteLittleEndian(8, t.createTimestamp);
    c.WriteLittleEndian(8, t.expireTimestamp);
    c.WriteLittleEndian(8, t.sequence);
  }

  method WriteConnectTimeoutTo(c: Cursor, t: ConnectToken)
    requires t.Writes() && c.pos + 8 <= c.data.Length
    modifies c, c.data
    ensures c.pos == old(c.pos) + 8 && c.data[..] == Put(old(c.data[..]), old(c.pos), ConnectTimeout(t))
  {
    hide Encode, Put;
    PutTwice(c.data[..], c.pos, Encode(4, ToUint32(t.timeoutSeconds)), Encode(4, |t.servers|));
    c.WriteLittleEndian(4, ToUint32(t.timeoutSeconds));
    c.WriteLittleEndian(4, |t.servers|);
  }

  method WriteConnectKeysTo(c: Cursor, t: ConnectToken)
    requires c.pos + 64 <= c.data.Length
    modifies c, c.data
    ensures c.pos == old(c.pos) + 64 && c.data[..] == Put(old(c.data[..]), old(c.pos), ConnectKeys(t))
  {
    hide Put;
    PutTwice(c.data[..], c.pos, t.clientToServerKey, t.serverToClientKey);
    c.WriteBytes(t.clientToServerKey);
    c.WriteBytes(t.serverToClientKey);
  }

  /** Timeout, servers and keys. */
  method WriteConnectTailTo(c: Cursor, t: ConnectToken)
    requires t.Writes() && c.pos + 8 + ADDRESS_BYTES * |t.servers| + 64 <= c.data.Length
    modifies c, c.data
    ensures c.pos == old(c.pos) + 8 + |WriteServers(t.servers)| + 64
    ensures c.data[..] == Put(old(c.data[..]), old(c.pos),
                              ConnectTimeout(t) + WriteServers(t.servers) + ConnectKeys(t))
  {
    hide ConnectTimeout, ConnectKeys, WriteServers, Put;
    ghost var start := c.pos;
    ghost var before := c.data[..];
    PutTwice(before, start, ConnectTimeout(t), WriteServers(t.servers));
    PutTwice(before, start, ConnectTimeout(t) + WriteServers(t.servers), ConnectKeys(t));
    WriteConnectTimeoutTo(c, t);
    WriteServersTo(c, t.servers);
    WriteConnectKeysTo(c, t);
  }

  /** netcode_write_connect_token. */
  method WriteConnectTo(t: ConnectToken, buffer: array<byte>)
    requires t.Writes() && buffer.Length >= CONNECT_TOKEN_BYTES
    modifies buffer
    ensures buffer[..CONNECT_TOKEN_BYTES] == WriteConnect(t)
    ensures buffer[CONNECT_TOKEN_BYTES..] == old(buffer[CONNECT_TOKEN_BYTES..])
  {
    hide ConnectStamp, ConnectTimeout, ConnectKeys, WriteServers, Put;
    ghost var before := buffer[..];
    var c := new Cursor(buffer);
    ghost var tail := ConnectTimeout(t) + WriteServers(t.servers) + ConnectKeys(t);
    ghost var body := ConnectStamp(t) + t.privateData + tail;
    assert body == ConnectBody(t);
    PutTwice(before, 0, ConnectStamp(t), t.privateData);
    PutTwice(before, 0, ConnectStamp(t) + t.privateData, tail);
    PutTwice(before, 0, body, Zeros(CONNECT_TOKEN_BYTES - |body|));
    WriteConnectStampTo(c, t);
    c.WriteBytes(t.privateData);
    WriteConnectTailTo(c, t);
    WriteZeros(c, CONNECT_TOKEN_BYTES - c.pos);
    PutPrefix(before, 0, WriteConnect(t));
  }

  /** netcode_read_connect_token. */
  method ReadConnectFrom(buffer: array<byte>) returns (r: Option<ConnectToken>)
    ensures r == ReadConnect(buffer[..])
  {
    if buffer.Length != CONNECT_TOKEN_BYTES {
      return None;
    }
    hide ReadServers, ReadU64, ReadU32;
    ghost var s := buffer[..];
    var c := new Cursor(buffer);
    var version := c.ReadBytes(VERSION_INFO_BYTES);
    assert s[..13] == buffer[0..13];
    if version != VERSION_INFO {
      return None;
    }
    var protocolId := ReadUint64(c);
    var create := ReadUint64(c);
    var expire := ReadUint64(c);
    assert s[13..] == buffer[13..] && s[21..] == buffer[21..] && s[29..] == buffer[29..];
    if create > expire {
      return None;
    }
    var sequence := ReadUint64(c);
    var privateData := c.ReadBytes(CONNECT_TOKEN_PRIVATE_BYTES);
    assert s[37..] == buffer[37..] && s[45..1069] == buffer[45..1069];
    r := ReadConnectTailFrom(c, s, protocolId, create, expire, sequence, privateData);
  }

  method ReadConnectTailFrom(c: Cursor, ghost s: bytes, protocolId: uint64, create: uint64, expire: uint64,
                             sequence: uint64, privateData: PrivateData) returns (r: Option<ConnectToken>)
    requires s == c.data[..] && c.pos == 1069 && |s| == CONNECT_TOKEN_BYTES && s[..13] == VERSION_INFO
    requires protocolId == ReadU64(s[13..]) && create == ReadU64(s[21..]) && expire == ReadU64(s[29..])
    requires sequence == ReadU64(s[37..]) && privateData == s[45..1069] && create <= expire
    modifies c
    ensures r == ReadConnect(s)
  {
    hide ReadServers, ReadU64, ReadU32;
    var timeout := ReadUint32(c);
    var count := ReadUint32(c);
    assert s[1069..] == c.data[1069..] && s[1073..] == c.data[1073..] && s[1077..] == c.data[1077..];
    var n := ToInt32(count);
    if n <= 0 || n > MAX_SERVERS_PER_CONNECT {
      return None;
    }
    var servers := ReadServersFrom(c, n);
    if servers.None? {
      return None;
    }
    ghost var rest := c.data[c.pos..];
    var clientToServer := c.ReadBytes(KEY_BYTES);
    var serverToClient := c.ReadBytes(KEY_BYTES);
    assert clientToServer == rest[..32] && serverToClient == rest[32..64];
    return Some(ConnectToken(VERSION_INFO, protocolId, create, expire, sequence, privateData, ToInt32(timeout),
                             servers.value, clientToServer, serverToClient));
  }

  // ----- challenge tokens -----

  /** netcode_write_challenge_token: zeros first, then the fields over them. */
  method WriteChallengeTo(t: ChallengeToken, buffer: array<byte>)
    requires buffer.Length >= CHALLENGE_TOKEN_BYTES
    modifies buffer
    ensures buffer[..CHALLENGE_TOKEN_BYTES] == WriteChallenge(t)
    ensures buffer[CHALLENGE_TOKEN_BYTES..] == old(buffer[CHALLENGE_TOKEN_BYTES..])
  {
    hide Encode, Put;
    ghost var before := buffer[..];
    var c := new Cursor(buffer);
    WriteZeros(c, CHALLENGE_TOKEN_BYTES);
    ghost var fields := Encode(8, t.clientId) + t.userData;
    PutTwice(buffer[..], 0, Encode(8, t.clientId), t.userData);
    c.WriteLittleEndian(8, t.clientId);
    c.WriteBytes(t.userData);
    ZerosUnder(before, fields, CHALLENGE_TOKEN_BYTES);
    PutPrefix(before, 0, fields + Zeros(36));
  }

  lemma ZerosUnder(buffer: bytes, fields: bytes, n: nat)
    requires |fields| <= n <= |buffer|
    ensures Put(Put(buffer, 0, Zeros(n)), 0, fields) == Put(buffer, 0, fields + Zeros(n - |fields|))
  {
  }

  /** netcode_read_challenge_token. */
  method ReadChallengeFrom(buffer: array<byte>) returns (r: Option<ChallengeToken>)
    ensures r == ReadChallenge(buffer[..])
  {
    if buffer.Length < CHALLENGE_TOKEN_BYTES {
      return None;
    }
    var c := new Cursor(buffer);
    assert buffer[0..] == buffer[..];
    var clientId := ReadUint64(c);
    var userData := c.ReadBytes(USER_DATA_BYTES);
    assert buffer[..][8..264] == buffer[8..264];
    return Some(ChallengeToken(clientId, userData));
  }
}
