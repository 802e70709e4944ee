/** Connect tokens, private connect tokens and challenge tokens, as bytes. */
module Tokens {
  import opened Types
  import opened LittleEndian
  import opened Crypto

  // ----- byte strings in pieces -----

  lemma Regroup(a: bytes, b: bytes, c: bytes)
    ensures a + b + c == a + (b + c)
  {
  }

  lemma ExtendPrefix(s: bytes, p: bytes, q: bytes)
    requires p <= s && q <= s[|p|..]
    ensures p + q <= s
  {
    assert s == p + s[|p|..];
  }

  // ----- server addresses -----

  function WriteWords(w: seq<uint16>): (s: bytes)
    ensures |s| == 2 * |w|
  {
    if w == [] then [] else Encode(2, w[0]) + WriteWords(w[1..])
  }

  function ReadWords(n: nat, s: bytes): (w: seq<uint16>)
    requires |s| >= 2 * n
    ensures |w| == n
  {
    if n == 0 then [] else [ReadU16(s)] + ReadWords(n - 1, s[2..])
  }

  lemma {:induction false} ReadWriteWords(w: seq<uint16>, rest: bytes)
    ensures ReadWords(|w|, WriteWords(w) + rest) == w
  {
    if w != [] {
      var s := WriteWords(w) + rest;
      var tail := WriteWords(w[1..]) + rest;
      Regroup(Encode(2, w[0]), WriteWords(w[1..]), rest);
      ReadU16Write(w[0], tail);
      assert s[2..] == tail;
      ReadWriteWords(w[1..], rest);
      hide Encode;
    }
  }

  lemma {:induction false} WriteReadWords(n: nat, s: bytes)
    requires |s| >= 2 * n
    ensures WriteWords(ReadWords(n, s)) == s[..2 * n]
  {
    if n > 0 {
      WriteReadWords(n - 1, s[2..]);
      assert s[..2 * n] == s[..2] + s[2..][..2 * (n - 1)];
      assert ReadWords(n, s)[1..] == ReadWords(n - 1, s[2..]);
    }
  }

  /** The most bytes one written address takes: a type byte, eight words and a port. */
  const ADDRESS_BYTES := 19

  function WriteAddress(a: Address): (s: bytes)
    requires a != NoAddress
    ensures 0 < |s| <= ADDRESS_BYTES
  {
    match a
    case IPv4(w, x, y, z, port) => [1, w, x, y, z] + Encode(2, port)
    case IPv6(words, port) => [2] + WriteWords(words) + Encode(2, port)
  }

  /** Reads one address and returns it with the bytes after it; fails on any other type byte.
      The precondition is what keeps the reader inside its buffer. */
  function ReadAddress(s: bytes): (r: Option<(Address, bytes)>)
    requires |s| >= ADDRESS_BYTES
    ensures r.Some? ==> r.value.0 != NoAddress && |r.value.1| >= |s| - ADDRESS_BYTES
  {
    if s[0] == 1 then
      Some((IPv4(s[1], s[2], s[3], s[4], ReadU16(s[5..])), s[7..]))
    else if s[0] == 2 then
      Some((IPv6(ReadWords(8, s[1..]), ReadU16(s[17..])), s[19..]))
    else
      None
  }

  lemma ReadWriteIPv4(a: Address, rest: bytes)
    requires a.IPv4? && |WriteAddress(a)| + |rest| >= ADDRESS_BYTES
    ensures ReadAddress(WriteAddress(a) + rest) == Some((a, rest))
  {
    var s := WriteAddress(a) + rest;
    assert s == [1, a.a, a.b, a.c, a.d] + (Encode(2, a.port4) + rest);
    assert s[5..] == Encode(2, a.port4) + rest;
    ReadU16Write(a.port4, rest);
    assert s[7..] == rest;
  }

  lemma ReadWriteIPv6(a: Address, rest: bytes)
    requires a.IPv6? && |WriteAddress(a)| + |rest| >= ADDRESS_BYTES
    ensures ReadAddress(WriteAddress(a) + rest) == Some((a, rest))
  {
    hide ReadWords, WriteWords;
    var s := WriteAddress(a) + rest;
    var s1 := Encode(2, a.port6) + rest;
    Regroup([2] + WriteWords(a.words), Encode(2, a.port6), rest);
    Regroup([2], WriteWords(a.words), s1);
    assert s[0] == 2;
    assert s[1..] == WriteWords(a.words) + s1;
    ReadWriteWords(a.words, s1);
    assert s[17..] == s1;
    ReadU16Write(a.port6, rest);
    assert s[19..] == rest;
  }

  lemma ReadWriteAddress(a: Address, rest: bytes)
    requires a != NoAddress && |WriteAddress(a)| + |rest| >= ADDRESS_BYTES
    ensures ReadAddress(WriteAddress(a) + rest) == Some((a, rest))
  {
    if a.IPv4? {
      ReadWriteIPv4(a, rest);
    } else {
      ReadWriteIPv6(a, rest);
    }
  }

  lemma WriteReadAddress(s: bytes)
    requires |s| >= ADDRESS_BYTES && ReadAddress(s).Some?
    ensures var (a, rest) := ReadAddress(s).value; s == WriteAddress(a) + rest
  {
    if s[0] == 1 {
      assert s == [1, s[1], s[2], s[3], s[4]] + s[5..][..2] + s[7..];
    } else {
      WriteReadWords(8, s[1..]);
      assert s == [2] + s[1..][..16] + s[17..][..2] + s[19..];
    }
  }

  predicate Writable(servers: seq<Address>) {
    forall i :: 0 <= i < |servers| ==> servers[i] != NoAddress
  }

  function WriteServers(servers: seq<Address>): (s: bytes)
    requires Writable(servers)
    ensures |s| <= ADDRESS_BYTES * |servers|
  {
    if servers == [] then [] else WriteAddress(servers[0]) + WriteServers(servers[1..])
  }

  function ReadServers(n: nat, s: bytes): (r: Option<(seq<Address>, bytes)>)
    requires |s| >= ADDRESS_BYTES * n
    ensures r.Some? ==> |r.value.0| == n && Writable(r.value.0)
                        && |r.value.1| >= |s| - ADDRESS_BYTES * n
  {
    if n == 0 then Some(([], s))
    else match ReadAddress(s)
      case None => None
      case Some((a, rest)) =>
        match ReadServers(n - 1, rest)
        case None => None
        case Some((more, end)) => Some(([a] + more, end))
  }

  lemma {:induction false} ReadWriteServers(servers: seq<Address>, rest: bytes)
    requires Writable(servers)
    requires |WriteServers(servers)| + |rest| >= ADDRESS_BYTES * |servers|
    ensures ReadServers(|servers|, WriteServers(servers) + rest) == Some((servers, rest))
  {
    if servers == [] {
      assert WriteServers(servers) + rest == rest;
    } else {
      var tail := WriteServers(servers[1..]) + rest;
      Regroup(WriteAddress(servers[0]), WriteServers(servers[1..]), rest);
      ReadWriteAddress(servers[0], tail);
      ReadWriteServers(servers[1..], rest);
      assert servers == [servers[0]] + servers[1..];
    }
  }

  lemma {:induction false} WriteReadServers(n: nat, s: bytes)
    requires |s| >= ADDRESS_BYTES * n && ReadServers(n, s).Some?
    ensures var (servers, rest) := ReadServers(n, s).value; s == WriteServers(servers) + rest
  {
    hide ReadAddress, WriteAddress;
    if n > 0 {
      WriteReadAddress(s);
      var (a, rest) := ReadAddress(s).value;
      WriteReadServers(n - 1, rest);
      var (more, end) := ReadServers(n - 1, rest).value;
      assert WriteServers([a] + more) == WriteAddress(a) + WriteServers(more) by {
        assert ([a] + more)[1..] == more;
      }
      Regroup(WriteAddress(a), WriteServers(more), end);
    }
  }

  // ----- private connect tokens -----

  datatype PrivateToken = PrivateToken(
    clientId: uint64,
    timeoutSeconds: int32,
    servers: seq<Address>,
    clientToServerKey: Key,
    serverToClientKey: Key,
    userData: UserData)
  {
    predicate WellFormed() {
      1 <= |servers| <= MAX_SERVERS_PER_CONNECT && Writable(servers)
    }
  }

  function PrivateHeader(t: PrivateToken): (s: bytes)
    requires t.WellFormed()
    ensures |s| == 16
  {
    Encode(8, t.clientId) + Encode(4, ToUint32(t.timeoutSeconds)) + Encode(4, |t.servers|)
  }

  function PrivateKeys(t: PrivateToken): (s: bytes)
    ensures |s| == 320
  {
    t.clientToServerKey + t.serverToClientKey + t.userData
  }

  /** The bytes written before the zero padding. */
  function PrivateBody(t: PrivateToken): (s: bytes)
    requires t.WellFormed()
    ensures |s| <= 944
  {
    PrivateHeader(t) + WriteServers(t.servers) + PrivateKeys(t)
  }

  function WritePrivate(t: PrivateToken): (s: bytes)
    requires t.WellFormed()
    ensures |s| == CONNECT_TOKEN_PRIVATE_BYTES
  {
    var body := PrivateBody(t);
    body + Zeros(CONNECT_TOKEN_PRIVATE_BYTES - |body|)
  }

  function ReadPrivate(s: bytes): (r: Option<PrivateToken>)
    ensures r.Some? ==> r.value.WellFormed()
  {
    if |s| < CONNECT_TOKEN_PRIVATE_BYTES then None
    else
      var clientId := ReadU64(s);
      var timeout := ToInt32(ReadU32(s[8..]));
      var n := ToInt32(ReadU32(s[12..]));
      if n <= 0 || n > MAX_SERVERS_PER_CONNECT then None
      else match ReadServers(n, s[16..])
        case None => None
        case Some((servers, rest)) =>
          Some(PrivateToken(clientId, timeout, servers, rest[..32], rest[32..64], rest[64..320]))
  }

  lemma ReadPrivateHeader(t: PrivateToken, rest: bytes)
    requires t.WellFormed()
    ensures var s := PrivateHeader(t) + rest;
            && ReadU64(s) == t.clientId && ReadU32(s[8..]) == ToUint32(t.timeoutSeconds)
            && ReadU32(s[12..]) == |t.servers| && s[16..] == rest
  {
    var s := PrivateHeader(t) + rest;
    var s2 := Encode(4, |t.servers|) + rest;
    var s1 := Encode(4, ToUint32(t.timeoutSeconds)) + s2;
    assert s == Encode(8, t.clientId) + s1;
    ReadU64Write(t.clientId, s1);
    assert s[8..] == s1;
    ReadU32Write(ToUint32(t.timeoutSeconds), s2);
    assert s[12..] == s2;
    ReadU32Write(|t.servers|, rest);
  }

  lemma ReadPrivateKeys(t: PrivateToken, tail: bytes)
    ensures var keys := PrivateKeys(t) + tail;
            && keys[..32] == t.clientToServerKey && keys[32..64] == t.serverToClientKey
            && keys[64..320] == t.userData
  {
  }

  /** Reading a written token gives the token back, whatever follows its body: zero padding,
      or zero padding and the tag left behind by decryption. */
  lemma ReadWritePrivate(t: PrivateToken, tail: bytes)
    requires t.WellFormed() && |PrivateBody(t)| + |tail| >= CONNECT_TOKEN_PRIVATE_BYTES
    ensures ReadPrivate(PrivateBody(t) + tail) == Some(t)
  {
    hide PrivateHeader, PrivateKeys, WriteServers, ReadServers;
    var s := PrivateBody(t) + tail;
    var keys := PrivateKeys(t) + tail;
    Regroup(PrivateHeader(t) + WriteServers(t.servers), PrivateKeys(t), tail);
    Regroup(PrivateHeader(t), WriteServers(t.servers), keys);
    ReadPrivateHeader(t, WriteServers(t.servers) + keys);
    ReadWriteServers(t.servers, keys);
    ReadPrivateKeys(t, tail);
  }

  lemma PrivateRoundTrip(t: PrivateToken)
    requires t.WellFormed()
    ensures ReadPrivate(WritePrivate(t)) == Some(t)
  {
    ReadWritePrivate(t, Zeros(CONNECT_TOKEN_PRIVATE_BYTES - |PrivateBody(t)|));
  }

  lemma WriteReadPrivateHeader(s: bytes)
    requires ReadPrivate(s).Some?
    ensures PrivateHeader(ReadPrivate(s).value) == s[..16]
  {
    Uint32RoundTrip(ReadU32(s[8..]));
    Uint32RoundTrip(ReadU32(s[12..]));
    assert s[..16] == s[..8] + s[8..][..4] + s[12..][..4];
  }

  /** What the reader accepts starts with exactly the bytes the writer would write. */
  lemma WriteReadPrivate(s: bytes)
    requires ReadPrivate(s).Some?
    ensures PrivateBody(ReadPrivate(s).value) <= s
    ensures WritePrivate(ReadPrivate(s).value)
            == s[..|PrivateBody(ReadPrivate(s).value)|]
               + Zeros(CONNECT_TOKEN_PRIVATE_BYTES - |PrivateBody(ReadPrivate(s).value)|)
  {
    hide PrivateHeader, WriteServers;
    var t := ReadPrivate(s).value;
    WriteReadPrivateHeader(s);
    WriteReadServers(|t.servers|, s[16..]);
    var (servers, rest) := ReadServers(|t.servers|, s[16..]).value;
    var p := PrivateHeader(t);
    ExtendPrefix(s, p, WriteServers(servers));
    assert s[|p| + |WriteServers(servers)|..] == s[16..][|WriteServers(servers)|..] == rest;
    assert PrivateKeys(t) == rest[..320];
    ExtendPrefix(s, p + WriteServers(servers), PrivateKeys(t));
  }

  /** Associated data that ties a private token to its protocol and expiry. */
  function PrivateAd(version: VersionInfo, protocolId: uint64, expire: uint64): bytes {
    version + Encode(8, protocolId) + Encode(8, expire)
  }

  /** What the seal of a private token covers besides the token: version, protocol and expiry. */
  lemma PrivateAdLayout(version: VersionInfo, protocolId: uint64, expire: uint64)
    ensures var ad := PrivateAd(version, protocolId, expire);
            && |ad| == 29 && ad[..13] == version
            && Decode(ad[13..21]) == protocolId && Decode(ad[21..]) == expire
  {
    PowValues();
    DecodeEncode(8, protocolId);
    DecodeEncode(8, expire);
    var ad := PrivateAd(version, protocolId, expire);
    assert ad[13..21] == Encode(8, protocolId) && ad[21..] == Encode(8, expire);
  }

  function SealPrivate(a: Aead, t: PrivateToken, protocolId: uint64, expire: uint64, sequence: uint64, key: Key)
    : bytes
    requires t.WellFormed()
  {
    a.seal(key, Nonce(sequence), PrivateAd(VERSION_INFO, protocolId, expire),
           WritePrivate(t)[..CONNECT_TOKEN_PRIVATE_BYTES - MAC_BYTES])
  }

  lemma OpenSealPrivate(a: Aead, t: PrivateToken, protocolId: uint64, expire: uint64, sequence: uint64, key: Key)
    requires Lawful(a) && t.WellFormed()
    ensures var c := SealPrivate(a, t, protocolId, expire, sequence, key);
            && |c| == CONNECT_TOKEN_PRIVATE_BYTES
            && var p := OpenInPlace(a, key, Nonce(sequence), PrivateAd(VERSION_INFO, protocolId, expire), c);
            && p.Some? && |p.value| == CONNECT_TOKEN_PRIVATE_BYTES
            && p.value[CONNECT_TOKEN_PRIVATE_BYTES - MAC_BYTES..] == c[CONNECT_TOKEN_PRIVATE_BYTES - MAC_BYTES..]
            && ReadPrivate(p.value) == Some(t)
  {
    var m := WritePrivate(t)[..CONNECT_TOKEN_PRIVATE_BYTES - MAC_BYTES];
    var c := SealPrivate(a, t, protocolId, expire, sequence, key);
    OpenInPlaceOfSeal(a, key, Nonce(sequence), PrivateAd(VERSION_INFO, protocolId, expire), m);
    var body := PrivateBody(t);
    var tail := Zeros(CONNECT_TOKEN_PRIVATE_BYTES - MAC_BYTES - |body|) + c[|m|..];
    assert m + c[|m|..] == body + tail;
    ReadWritePrivate(t, tail);
  }

  // ----- public connect tokens -----

  datatype ConnectToken = ConnectToken(
    version: VersionInfo,
    protocolId: uint64,
    createTimestamp: uint64,
    expireTimestamp: uint64,
    sequence: uint64,
    privateData: PrivateData,
    timeoutSeconds: int32,
    servers: seq<Address>,
    clientToServerKey: Key,
    serverToClientKey: Key)
  {
    /** What the writer asserts of its argument. */
    predicate Writes() {
      1 <= |servers| <= MAX_SERVERS_PER_CONNECT && Writable(servers)
    }

    /** What the reader checks. */
    predicate WellFormed() {
      Writes() && version == VERSION_INFO && createTimestamp <= expireTimestamp
    }
  }

  const NO_CONNECT_TOKEN: ConnectToken :=
    ConnectToken(Zeros(13), 0, 0, 0, 0, Zeros(1024), 0, [], ZERO_KEY, ZERO_KEY)

  function ConnectStamp(t: ConnectToken): (s: bytes)
    ensures |s| == 45
  {
    t.version + Encode(8, t.protocolId) + Encode(8, t.createTimestamp) + Encode(8, t.expireTimestamp)
    + Encode(8, t.sequence)
  }

  function ConnectTimeout(t: ConnectToken): (s: bytes)
    requires t.Writes()
    ensures |s| == 8
  {
    Encode(4, ToUint32(t.timeoutSeconds)) + Encode(4, |t.servers|)
  }

  function ConnectKeys(t: ConnectToken): (s: bytes)
    ensures |s| == 64
  {
    t.clientToServerKey + t.serverToClientKey
  }

  function ConnectBody(t: ConnectToken): (s: bytes)
    requires t.Writes()
    ensures |s| <= 1749
  {
    ConnectStamp(t) + t.privateData + ConnectTimeout(t) + WriteServers(t.servers) + ConnectKeys(t)
  }

  function WriteConnect(t: ConnectToken): (s: bytes)
    requires t.Writes()
    ensures |s| == CONNECT_TOKEN_BYTES
  {
    ConnectBody(t) + Zeros(CONNECT_TOKEN_BYTES - |ConnectBody(t)|)
  }

  function ReadConnect(s: bytes): (r: Option<ConnectToken>)
    ensures r.Some? ==> r.value.WellFormed()
  {
    if |s| != CONNECT_TOKEN_BYTES || s[..13] != VERSION_INFO then None
    else
      var create := ReadU64(s[21..]);
      var expire := ReadU64(s[29..]);
      if create > expire then None
      else
        var n := ToInt32(ReadU32(s[1073..]));
        if n <= 0 || n > MAX_SERVERS_PER_CONNECT then None
        else match ReadServers(n, s[1077..])
          case None => None
          case Some((servers, rest)) =>
            Some(ConnectToken(s[..13], ReadU64(s[13..]), create, expire, ReadU64(s[37..]), s[45..1069],
                              ToInt32(ReadU32(s[1069..])), servers, rest[..32], rest[32..64]))
  }

  lemma ReadConnectStamp(t: ConnectToken, rest: bytes)
    ensures var s := ConnectStamp(t) + rest;
            && s[..13] == t.version && ReadU64(s[13..]) == t.protocolId && ReadU64(s[21..]) == t.createTimestamp
            && ReadU64(s[29..]) == t.expireTimestamp && ReadU64(s[37..]) == t.sequence && s[45..] == rest
  {
    var s3 := Encode(8, t.sequence) + rest;
    var s2 := Encode(8, t.expireTimestamp) + s3;
    var s1 := Encode(8, t.createTimestamp) + s2;
    var s0 := Encode(8, t.protocolId) + s1;
    var s := ConnectStamp(t) + rest;
    assert s == t.version + s0;
    assert s[13..] == s0;
    ReadU64Write(t.protocolId, s1);
    assert s[21..] == s1;
    ReadU64Write(t.createTimestamp, s2);
    assert s[29..] == s2;
    ReadU64Write(t.expireTimestamp, s3);
    assert s[37..] == s3;
    ReadU64Write(t.sequence, rest);
  }

  lemma ReadConnectTimeout(t: ConnectToken, rest: bytes)
    requires t.Writes()
    ensures var s := ConnectTimeout(t) + rest;
            && ReadU32(s) == ToUint32(t.timeoutSeconds) && ReadU32(s[4..]) == |t.servers| && s[8..] == rest
  {
    var s1 := Encode(4, |t.servers|) + rest;
    var s := ConnectTimeout(t) + rest;
    assert s == Encode(4, ToUint32(t.timeoutSeconds)) + s1;
    ReadU32Write(ToUint32(t.timeoutSeconds), s1);
    assert s[4..] == s1;
    ReadU32Write(|t.servers|, rest);
  }

  lemma ConnectPieces(t: ConnectToken, pad: bytes)
    requires t.Writes()
    ensures ConnectBody(t) + pad
            == ConnectStamp(t)
               + (t.privateData + (ConnectTimeout(t) + (WriteServers(t.servers) + (ConnectKeys(t) + pad))))
  {
    var p1 := ConnectStamp(t);
    var p2 := p1 + t.privateData;
    var p3 := p2 + ConnectTimeout(t);
    var p4 := p3 + WriteServers(t.servers);
    var keys := ConnectKeys(t) + pad;
    Regroup(p4, ConnectKeys(t), pad);
    Regroup(p3, WriteServers(t.servers), keys);
    Regroup(p2, ConnectTimeout(t), WriteServers(t.servers) + keys);
    Regroup(p1, t.privateData, ConnectTimeout(t) + (WriteServers(t.servers) + keys));
  }

  /** Where the parts of a written token start. */
  lemma ConnectLayout(t: ConnectToken)
    requires t.Writes()
    ensures var s := WriteConnect(t);
            && s == ConnectStamp(t) + s[45..]
            && s[45..1069] == t.privateData
            && s[1069..] == ConnectTimeout(t) + s[1077..]
            && s[1077..] == WriteServers(t.servers)
                            + (ConnectKeys(t) + Zeros(CONNECT_TOKEN_BYTES - |ConnectBody(t)|))
  {
    hide ConnectStamp, ConnectTimeout, ConnectKeys, WriteServers;
    var pad := Zeros(CONNECT_TOKEN_BYTES - |ConnectBody(t)|);
    ConnectPieces(t, pad);
    var s2 := WriteServers(t.servers) + (ConnectKeys(t) + pad);
    var s1 := ConnectTimeout(t) + s2;
    var s0 := t.privateData + s1;
    var s := WriteConnect(t);
    assert s == ConnectStamp(t) + s0;
    assert s[45..] == s0;
    assert s[45..1069] == s0[..1024];
    assert s[1069..] == s0[1024..] == s1;
    assert s[1077..] == s1[8..] == s2;
  }

  lemma ConnectRoundTrip(t: ConnectToken)
    requires t.WellFormed()
    ensures ReadConnect(WriteConnect(t)) == Some(t)
  {
    hide ConnectStamp, ConnectTimeout, WriteServers, ReadServers, WriteConnect;
    var s := WriteConnect(t);
    var keys := ConnectKeys(t) + Zeros(CONNECT_TOKEN_BYTES - |ConnectBody(t)|);
    ConnectLayout(t);
    ReadConnectStamp(t, s[45..]);
    ReadConnectTimeout(t, s[1077..]);
    assert s[1073..] == s[1069..][4..];
    ReadWriteServers(t.servers, keys);
    assert keys[..32] == t.clientToServerKey && keys[32..64] == t.serverToClientKey;
  }

  lemma WriteReadConnectStamp(s: bytes)
    requires ReadConnect(s).Some?
    ensures ConnectStamp(ReadConnect(s).value) == s[..45]
  {
    assert s[..45] == s[..13] + s[13..][..8] + s[21..][..8] + s[29..][..8] + s[37..][..8];
  }

  lemma WriteReadConnectTimeout(s: bytes)
    requires ReadConnect(s).Some?
    ensures ConnectTimeout(ReadConnect(s).value) == s[1069..1077]
  {
    hide ReadServers, WriteServers, Encode, Decode, ConnectStamp;
    Uint32RoundTrip(ReadU32(s[1069..]));
    Uint32RoundTrip(ReadU32(s[1073..]));
    assert s[1069..1077] == s[1069..][..4] + s[1073..][..4];
  }

  lemma WriteReadConnect(s: bytes)
    requires ReadConnect(s).Some?
    ensures ConnectBody(ReadConnect(s).value) <= s
    ensures WriteConnect(ReadConnect(s).value)
            == s[..|ConnectBody(ReadConnect(s).value)|]
               + Zeros(CONNECT_TOKEN_BYTES - |ConnectBody(ReadConnect(s).value)|)
  {
    hide ConnectStamp, ConnectTimeout, WriteServers;
    var t := ReadConnect(s).value;
    WriteReadConnectStamp(s);
    WriteReadConnectTimeout(s);
    WriteReadServers(|t.servers|, s[1077..]);
    var (servers, rest) := ReadServers(|t.servers|, s[1077..]).value;
    ExtendPrefix(s, s[..45], t.privateData);
    ExtendPrefix(s, s[..45] + t.privateData, ConnectTimeout(t));
    var p := s[..45] + t.privateData + ConnectTimeout(t);
    ExtendPrefix(s, p, WriteServers(servers));
    assert s[|p| + |WriteServers(servers)|..] == s[1077..][|WriteServers(servers)|..] == rest;
    assert ConnectKeys(t) == rest[..64];
    ExtendPrefix(s, p + WriteServers(servers), ConnectKeys(t));
  }

  // ----- challenge tokens -----

  datatype ChallengeToken = ChallengeToken(clientId: uint64, userData: UserData)

  function WriteChallenge(t: ChallengeToken): (s: ChallengeData) {
    Encode(8, t.clientId) + t.userData + Zeros(36)
  }

  function ReadChallenge(s: bytes): (r: Option<ChallengeToken>) {
    if |s| < CHALLENGE_TOKEN_BYTES then None
    else Some(ChallengeToken(ReadU64(s), s[8..264]))
  }

  function SealChallenge(a: Aead, t: ChallengeToken, sequence: uint64, key: Key): bytes {
    a.seal(key, Nonce(sequence), [], WriteChallenge(t)[..CHALLENGE_TOKEN_BYTES - MAC_BYTES])
  }

  function OpenChallenge(a: Aead, data: ChallengeData, sequence: uint64, key: Key): Option<ChallengeToken> {
    match OpenInPlace(a, key, Nonce(sequence), [], data)
    case None => None
    case Some(plain) => ReadChallenge(plain)
  }

  lemma OpenSealChallenge(a: Aead, t: ChallengeToken, sequence: uint64, key: Key)
    requires Lawful(a)
    ensures var c := SealChallenge(a, t, sequence, key);
            |c| == CHALLENGE_TOKEN_BYTES && OpenChallenge(a, c, sequence, key) == Some(t)
  {
    var m := WriteChallenge(t)[..CHALLENGE_TOKEN_BYTES - MAC_BYTES];
    var c := SealChallenge(a, t, sequence, key);
    OpenInPlaceOfSeal(a, key, Nonce(sequence), [], m);
    var plain := m + c[|m|..];
    var rest := t.userData + Zeros(20) + c[|m|..];
    assert plain == Encode(8, t.clientId) + rest;
    ReadU64Write(t.clientId, rest);
    assert plain[8..264] == t.userData;
  }

  // ----- token generation -----

  /** netcode_generate_connect_token: keys, user data and the clock are inputs here. */
  function GenerateConnectToken(
    a: Aead, servers: seq<Address>, expireSeconds: int32, timeoutSeconds: int32, clientId: uint64,
    protocolId: uint64, sequence: uint64, privateKey: Key,
    clientToServerKey: Key, serverToClientKey: Key, userData: UserData, now: uint64)
    : (t: ConnectToken)
    requires 1 <= |servers| <= MAX_SERVERS_PER_CONNECT && Writable(servers) && Lawful(a)
    ensures t.Writes()
  {
    var hidden := PrivateToken(clientId, timeoutSeconds, servers, clientToServerKey, serverToClientKey, userData);
    var expire := if expireSeconds >= 0 then (now + expireSeconds) % TWO64 else TWO64 - 1;
    OpenSealPrivate(a, hidden, protocolId, expire, sequence, privateKey);
    ConnectToken(VERSION_INFO, protocolId, now, expire, sequence,
                 SealPrivate(a, hidden, protocolId, expire, sequence, privateKey),
                 timeoutSeconds, servers, clientToServerKey, serverToClientKey)
  }
}
