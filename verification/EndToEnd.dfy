/** A connect token on its whole way: generated, given to a client, sent to a server, turned into
    keys, a challenge, a response and a connection on both sides. */
module EndToEnd {
  import opened Types
  import opened LittleEndian
  import opened Crypto
  import opened Tokens
  import opened Packets
  import opened Replay
  import opened Queue
  import opened Traces
  import opened Memory
  import opened ServerTables
  import opened ServerProvenance
  import C = Client
  import CR = ClientRuns
  import S = Server
  import M = Mappings
  import H = TokenHistory

  /** What a token is generated from. */
  datatype Issue = Issue(
    servers: seq<Address>,
    expireSeconds: int32,
    timeoutSeconds: int32,
    clientId: uint64,
    protocolId: uint64,
    sequence: uint64,
    privateKey: Key,
    clientToServerKey: Key,
    serverToClientKey: Key,
    userData: UserData,
    now: uint64)
  {
    predicate Ok() {
      1 <= |servers| <= MAX_SERVERS_PER_CONNECT && Writable(servers)
    }

    function Hidden(): PrivateToken {
      PrivateToken(clientId, timeoutSeconds, servers, clientToServerKey, serverToClientKey, userData)
    }
  }

  function Token(a: Aead, k: Issue): (t: ConnectToken)
    requires Lawful(a) && k.Ok()
    ensures t.Writes()
  {
    GenerateConnectToken(a, k.servers, k.expireSeconds, k.timeoutSeconds, k.clientId, k.protocolId, k.sequence,
                         k.privateKey, k.clientToServerKey, k.serverToClientKey, k.userData, k.now)
  }

  lemma TokenFacts(a: Aead, k: Issue)
    requires Lawful(a) && k.Ok()
    ensures var t := Token(a, k);
            && t.version == VERSION_INFO && t.protocolId == k.protocolId && t.sequence == k.sequence
            && t.createTimestamp == k.now && t.servers == k.servers && t.servers[0] != NoAddress
            && t.serverToClientKey == k.serverToClientKey && t.clientToServerKey == k.clientToServerKey
            && t.privateData == SealPrivate(a, k.Hidden(), k.protocolId, t.expireTimestamp, k.sequence, k.privateKey)
            && t.timeoutSeconds == k.timeoutSeconds
            && t.expireTimestamp == (if k.expireSeconds < 0 then TWO64 - 1 else (k.now + k.expireSeconds) % TWO64)
            && (t.createTimestamp <= t.expireTimestamp <==> k.expireSeconds < 0 || k.now + k.expireSeconds < TWO64)
  {
    hide Lawful, SealPrivate;
  }

  /** A client can read a generated token exactly when its expiry did not wrap around. */
  lemma GeneratedTokenReads(a: Aead, k: Issue)
    requires Lawful(a) && k.Ok()
    ensures if k.expireSeconds < 0 || k.now + k.expireSeconds < TWO64
            then ReadConnect(WriteConnect(Token(a, k))) == Some(Token(a, k))
            else ReadConnect(WriteConnect(Token(a, k))) == None
  {
    hide Lawful, SealPrivate, WriteConnect, Token;
    TokenFacts(a, k);
    var t := Token(a, k);
    if t.createTimestamp <= t.expireTimestamp {
      ConnectRoundTrip(t);
    } else {
      ConnectLayout(t);
      ReadConnectStamp(t, WriteConnect(t)[45..]);
    }
  }

  /** A generated token holds what it was generated from, for the client in the open and for the servers
      in a private half that opens under the private key; it expires after the given number of
      seconds, or never when that is negative. */
  lemma GeneratedTokenHolds(a: Aead, k: Issue)
    requires Lawful(a) && k.Ok()
    ensures var t := Token(a, k);
            && t.protocolId == k.protocolId && t.sequence == k.sequence && t.timeoutSeconds == k.timeoutSeconds
            && t.servers == k.servers
            && t.serverToClientKey == k.serverToClientKey && t.clientToServerKey == k.clientToServerKey
            && t.createTimestamp == k.now
            && t.expireTimestamp == (if k.expireSeconds < 0 then 0xFFFF_FFFF_FFFF_FFFF else (k.now + k.expireSeconds) % TWO64)
            && var plain := OpenInPlace(a, k.privateKey, Nonce(k.sequence),
                                        VERSION_INFO + Encode(8, k.protocolId) + Encode(8, t.expireTimestamp), t.privateData);
            && plain.Some?
            && ReadPrivate(plain.value) == Some(PrivateToken(k.clientId, k.timeoutSeconds, k.servers, k.clientToServerKey,
                                                             k.serverToClientKey, k.userData))
  {
    hide Lawful, SealPrivate, Token, OpenInPlace, ReadPrivate, Encode, Nonce;
    TokenFacts(a, k);
    OpenSealPrivate(a, k.Hidden(), k.protocolId, Token(a, k).expireTimestamp, k.sequence, k.privateKey);
  }

  /** A client that connects with the token's bytes. */
  ghost predicate Aims(a: Aead, c: C.Client, k: Issue)
    requires Lawful(a) && k.Ok()
  {
    && C.Live(c) && c.token == Token(a, k)
    && c.readKey == k.serverToClientKey && c.writeKey == k.clientToServerKey
    && c.serverAddress != NoAddress
  }

  lemma ConnectAims(a: Aead, c: C.Client, k: Issue)
    requires Lawful(a) && k.Ok() && CR.Inv(c) && !c.loopback
    requires k.expireSeconds < 0 || k.now + k.expireSeconds < TWO64
    ensures var d := C.ConnectWith(c, WriteConnect(Token(a, k)));
            && Aims(a, d, k) && d.state == C.SENDING_REQUEST && d.serverAddress == k.servers[0]
            && d.window == Fresh(|d.window.received|) && !d.shouldDisconnect
            && d.connectStart == c.time && d.lastSend == c.time - 1.0 && d.lastReceive == c.time
  {
    hide Lawful, SealPrivate, WriteConnect, C.DisconnectInternal, CR.Inv, Token;
    GeneratedTokenReads(a, k);
    TokenFacts(a, k);
    CR.DisconnectInv(c, C.DISCONNECTED, true);
    CR.AimedFacts(C.DisconnectInternal(c, C.DISCONNECTED, true));
  }

  // ----- the request -----

  function RequestWire(a: Aead, c: C.Client): bytes {
    WritePacket(a, C.RequestPacket(c), c.sequence, c.writeKey, c.token.protocolId)
  }

  /** The private token as the server sees it: plain text and the tag it was sealed with. */
  ghost predicate OpensTo(a: Aead, k: Issue, data: PrivateData)
    requires Lawful(a) && k.Ok()
  {
    && ReadPrivate(data) == Some(k.Hidden())
    && S.RequestMac(data) == Token(a, k).privateData[CONNECT_TOKEN_PRIVATE_BYTES - MAC_BYTES..]
  }

  /** The server's reader opens the request of a client that aims with the token. */
  lemma RequestReads(a: Aead, c: C.Client, k: Issue, key: Option<Key>, now: uint64, window: Option<Window>)
    returns (data: PrivateData)
    requires Lawful(a) && k.Ok() && Aims(a, c, k) && now < Token(a, k).expireTimestamp
    ensures OpensTo(a, k, data)
    ensures ReadPacket(a, RequestWire(a, c), key, k.protocolId, now, Some(k.privateKey), S.ALLOWED, window)
            == (Some((C.RequestPacket(c).(tokenData := data), 0)), window)
    ensures |RequestWire(a, c)| > 1 && RequestWire(a, c)[0] == 0
  {
    hide Lawful, ReadPacket, WritePacket, SealPrivate, OpenInPlace, ReadPrivate, Token;
    TokenFacts(a, k);
    var p := C.RequestPacket(c);
    var t := Token(a, k);
    assert p == Request(VERSION_INFO, k.protocolId, t.expireTimestamp, k.sequence, t.privateData);
    assert t.privateData == SealPrivate(a, k.Hidden(), k.protocolId, t.expireTimestamp, k.sequence, k.privateKey);
    OpenSealPrivate(a, k.Hidden(), k.protocolId, t.expireTimestamp, k.sequence, k.privateKey);
    RequestRoundTrip(a, p, c.sequence, c.writeKey, key, k.protocolId, now, Some(k.privateKey), S.ALLOWED, window);
    RequestLayout(a, p, c.sequence, c.writeKey, c.token.protocolId);
    var (reading, moved) :=
      ReadPacket(a, RequestWire(a, c), key, k.protocolId, now, Some(k.privateKey), S.ALLOWED, window);
    data := reading.value.0.tokenData;
  }

  /** The tag the server's token history knows the token by. */
  ghost function TokenMac(a: Aead, k: Issue): Mac
    requires Lawful(a) && k.Ok()
  {
    Token(a, k).privateData[CONNECT_TOKEN_PRIVATE_BYTES - MAC_BYTES..]
  }

  /** A server willing to take this client from this address. */
  ghost predicate Welcomes(a: Aead, s: S.ServerState, k: Issue, from: Address)
    requires Lawful(a) && k.Ok()
  {
    && Tables(s) && s.running && !s.ignoreRequests && !s.ignoreResponses
    && s.protocolId == k.protocolId && s.privateKey == k.privateKey
    && S.Whitelisted(s.address, k.servers)
    && from != NoAddress
    && (forall i :: 0 <= i < |s.slots| && s.slots[i].connected ==>
          s.slots[i].address != from && s.slots[i].clientId != k.clientId)
    && s.numConnected < s.maxClients
    && H.FindOrAdd(s.history, from, TokenMac(a, k), s.time).0
    && HasRoom(s.mappings, from, s.time)
    && k.timeoutSeconds >= 0
  }

  /** The mapping table can take a mapping for the address: it has one already, or an entry is free. */
  ghost predicate HasRoom(m: M.Manager, a: Address, time: real) {
    exists i :: 0 <= i < |m.entries| && (!M.Live(m.entries[i], time) || m.entries[i].address == a)
  }

  /** The server's keys for an address are the client's keys, crossed over. */
  ghost predicate KeysAgree(s: S.ServerState, from: Address, c: C.Client) {
    var (i, m) := M.Find(s.mappings, from, s.time);
    && 0 <= i < s.mappings.num <= |s.mappings.entries|
    && s.mappings.entries[i].receiveKey == c.writeKey
    && s.mappings.entries[i].sendKey == c.readKey
  }

  /** The mapping a datagram from the address is read with. */
  ghost function FoundMapping(s: S.ServerState, from: Address): Option<M.Mapping> {
    var i := M.Find(s.mappings, from, s.time).0;
    if 0 <= i < |s.mappings.entries| then Some(s.mappings.entries[i]) else None
  }

  /** The reply to a granted request. */
  ghost predicate Challenges(a: Aead, r: S.ServerState, s: S.ServerState, k: Issue, from: Address) {
    && r.trace.Then? && r.trace.last.Sent? && Extends(s.trace, r.trace.past)
    && var sealed := SealChallenge(a, ChallengeToken(k.clientId, k.userData), s.challengeSequence, s.challengeKey);
    && |sealed| == CHALLENGE_TOKEN_BYTES
    && r.trace.last == Sent(GLOBAL, from, Challenge(s.challengeSequence, sealed), s.globalSequence, k.serverToClientKey,
                             s.protocolId)
  }

  /** What a server was created with stays. */
  ghost predicate SameOffice(s: S.ServerState, r: S.ServerState) {
    && r.address == s.address && r.protocolId == s.protocolId && r.privateKey == s.privateKey
    && r.ignoreRequests == s.ignoreRequests && r.ignoreResponses == s.ignoreResponses
  }

  /** Nobody but the mapping's address was touched. */
  ghost predicate SameSeats(s: S.ServerState, r: S.ServerState) {
    && r.slots == s.slots && r.numConnected == s.numConnected && r.maxClients == s.maxClients
    && r.running == s.running && r.time == s.time && r.challengeKey == s.challengeKey && SameOffice(s, r)
  }

  /** The mapping for a fresh address is found under the keys it was added with. */
  lemma AddedMappingFound(m: M.Manager, e: M.Mapping, time: real)
    requires M.Inv(m, time) && M.Live(e, time) && HasRoom(m, e.address, time)
    ensures M.Add(m, e, time).0
    ensures var n := M.Add(m, e, time).1; var i := M.Find(n, e.address, time).0;
            0 <= i < n.num <= |n.entries| && n.entries[i] == e
  {
    M.AddFails(m, e, time);
    assert M.Add(m, e, time).0;
    M.AddInv(m, e, time);
    M.AddView(m, e, time);
    M.AddAtAddress(m, e, time);
    hide M.Add, M.View;
    var n := M.Add(m, e, time).1;
    M.FindView(n, e.address, time);
  }

  lemma FindKeepsRoom(m: M.Manager, from: Address, time: real)
    requires M.Inv(m, time) && HasRoom(m, from, time)
    ensures HasRoom(M.Find(m, from, time).1, from, time)
  {
    M.FindInv(m, from, time);
    var i :| 0 <= i < |m.entries| && (!M.Live(m.entries[i], time) || m.entries[i].address == from);
    var (k, n) := M.Find(m, from, time);
    assert n.entries[i].address == m.entries[i].address;
    assert k != i ==> n.entries[i] == m.entries[i];
  }

  lemma RequestPasses(a: Aead, s: S.ServerState, k: Issue, from: Address, data: PrivateData)
    requires Lawful(a) && k.Ok() && Welcomes(a, s, k, from) && OpensTo(a, k, data)
    ensures Passes(s, from, data) && ReadPrivate(data) == Some(k.Hidden())
    ensures M.Inv(s.mappings, s.time) && M.Live(S.RequestMapping(s, from, k.Hidden()), s.time)
  {
    hide Lawful, ReadPrivate, H.FindOrAdd, Token;
  }

  /** Processing the request at a server that welcomes it. */
  lemma RequestGranted(a: Aead, s: S.ServerState, k: Issue, from: Address, data: PrivateData)
    requires Lawful(a) && k.Ok() && Welcomes(a, s, k, from) && OpensTo(a, k, data)
    ensures var r := S.ProcessRequest(a, s, from, data);
            && Tables(r) && SameSeats(s, r) && Challenges(a, r, s, k, from)
            && r.history == H.FindOrAdd(s.history, from, TokenMac(a, k), s.time).1
            && var i := M.Find(r.mappings, from, r.time).0;
            && 0 <= i < r.mappings.num <= |r.mappings.entries|
            && r.mappings.entries[i] == S.RequestMapping(s, from, k.Hidden())
  {
    RequestPasses(a, s, k, from, data);
    AddedMappingFound(s.mappings, S.RequestMapping(s, from, k.Hidden()), s.time);
    assert Tables(s) && s.numConnected < s.maxClients;
    hide Welcomes, Lawful, S.ProcessRequest, SealChallenge, H.FindOrAdd, ReadPrivate, Token, Passes, M.Add, M.Find, M.Inv,
         M.Live, Tables, S.RequestMac, OpensTo;
    RequestTables(a, s, from, data);
    GrantedExactlyWhen(a, s, from, data);
    hide SameSeats, Challenges;
    GrantShape(a, s, S.ProcessRequest(a, s, from, data), k, from);
  }

  lemma GrantShape(a: Aead, s: S.ServerState, r: S.ServerState, k: Issue, from: Address)
    requires r.trace.Then? && r.trace.past.Then? && r.trace.past.past.Then? && r.trace.past.past.past == s.trace
    requires var sealed := SealChallenge(a, ChallengeToken(k.clientId, k.userData), s.challengeSequence, s.challengeKey);
             && |sealed| == CHALLENGE_TOKEN_BYTES
             && r == s.(history := r.history,
                        mappings := r.mappings,
                        challengeSequence := Inc64(s.challengeSequence),
                        globalSequence := Inc64(s.globalSequence),
                        trace := Then(Then(r.trace.past.past, Granted(from, k.clientId, k.userData, s.challengeSequence,
                                                                      k.serverToClientKey)),
                                      Sent(GLOBAL, from, Challenge(s.challengeSequence, sealed), s.globalSequence,
                                           k.serverToClientKey, s.protocolId)))
    ensures SameSeats(s, r) && Challenges(a, r, s, k, from)
  {
    ExtendsByOne(s.trace, s.trace, r.trace.past.past.last);
    ExtendsByOne(s.trace, r.trace.past.past, r.trace.past.last);
    hide SealChallenge, Extends;
  }

  /** End-to-end key agreement: when a welcoming server receives the request of a client that aims
      with a generated token, the server's receive key for that address is the client's write key,
      its send key is the client's read key, and it answers with a challenge sealed for the token's
      client id and user data. */
  lemma KeyAgreement(a: Aead, c: C.Client, s: S.ServerState, k: Issue, from: Address, now: uint64)
    requires Lawful(a) && k.Ok() && Aims(a, c, k) && Welcomes(a, s, k, from) && now < Token(a, k).expireTimestamp
    ensures var r := S.Receive(a, s, S.Datagram(from, RequestWire(a, c)), now);
            && KeysAgree(r, from, c) && Challenges(a, r, s, k, from) && Tables(r) && SameSeats(s, r)
            && FoundMapping(r, from) == Some(S.RequestMapping(s, from, k.Hidden()))
            && r.history == H.FindOrAdd(s.history, from, TokenMac(a, k), s.time).1
  {
    hide Lawful, ReadPacket, RequestWire, M.Find, Token, Challenges, S.ProcessRequest, Welcomes, SameSeats, Tables,
         OpensTo, Aims, S.Receive;
    var (index, m) := M.Find(s.mappings, from, s.time);
    var key := if index == -1 then None else Some(m.entries[index].receiveKey);
    NotConnectedRoute(a, s, k, from);
    var data := RequestReads(a, c, k, key, now, None);
    var p := C.RequestPacket(c).(tokenData := data);
    var seen := Seen(s, from, p, 0);
    SeenWelcomes(a, s, k, from, p);
    RequestGranted(a, seen, k, from, data);
    ReceiveRequest(a, s, from, RequestWire(a, c), now, data, p, key);
    GrantIsAgreement(a, c, s, k, from, S.ProcessRequest(a, seen, from, data), seen);
  }

  /** The server when it starts to process a packet from an address without a client. */
  ghost function Seen(s: S.ServerState, from: Address, p: Packet, q: uint64): S.ServerState {
    var (index, m) := M.Find(s.mappings, from, s.time);
    s.(mappings := m, memory := Alloc(s.memory).1,
       trace := Then(s.trace, Processed(from, p, q, S.KeyAt(s.(mappings := m), index))))
  }

  lemma SeenShape(s: S.ServerState, from: Address, p: Packet, q: uint64)
    ensures var r := Seen(s, from, p, q);
            && r == s.(mappings := M.Find(s.mappings, from, s.time).1, memory := r.memory, trace := r.trace)
            && Extends(s.trace, r.trace)
  {
    hide M.Find;
  }

  lemma SeenWelcomes(a: Aead, s: S.ServerState, k: Issue, from: Address, p: Packet)
    requires Lawful(a) && k.Ok() && Welcomes(a, s, k, from)
    ensures Welcomes(a, Seen(s, from, p, 0), k, from)
  {
    NotConnectedRoute(a, s, k, from);
    RouteTables(s, from);
    FindKeepsRoom(s.mappings, from, s.time);
    hide Lawful, Tables, M.Find, Token, H.FindOrAdd, M.Live, S.Whitelisted, Welcomes;
    TraceTables(s.(mappings := M.Find(s.mappings, from, s.time).1), Seen(s, from, p, 0));
    WelcomesFrame(a, s, Seen(s, from, p, 0), k, from);
  }

  lemma WelcomesFrame(a: Aead, s: S.ServerState, r: S.ServerState, k: Issue, from: Address)
    requires Lawful(a) && k.Ok() && Welcomes(a, s, k, from) && Tables(r)
    requires r == s.(mappings := r.mappings, memory := r.memory, trace := r.trace)
    requires HasRoom(r.mappings, from, r.time)
    ensures Welcomes(a, r, k, from)
  {
    hide Lawful, Tables, Token, H.FindOrAdd, M.Live, S.Whitelisted;
  }

  lemma GrantIsAgreement(a: Aead, c: C.Client, s: S.ServerState, k: Issue, from: Address, d: S.ServerState,
                         seen: S.ServerState)
    requires Lawful(a) && k.Ok() && Aims(a, c, k)
    requires seen == s.(mappings := seen.mappings, memory := seen.memory, trace := seen.trace) && Extends(s.trace, seen.trace)
    requires Tables(d) && SameSeats(seen, d) && Challenges(a, d, seen, k, from)
    requires var i := M.Find(d.mappings, from, d.time).0;
             && 0 <= i < d.mappings.num <= |d.mappings.entries|
             && d.mappings.entries[i] == S.RequestMapping(seen, from, k.Hidden())
    ensures var r := d.(memory := Free(d.memory, s.memory.next));
            && KeysAgree(r, from, c) && Challenges(a, r, s, k, from) && Tables(r) && SameSeats(s, r)
            && FoundMapping(r, from) == Some(S.RequestMapping(s, from, k.Hidden()))
  {
    hide Lawful, Tables, M.Find, Token, SealChallenge, Extends;
    ExtendsTwice(s.trace, seen.trace, d.trace.past);
    TraceTables(d, d.(memory := Free(d.memory, s.memory.next)));
  }

  lemma NotConnectedRoute(a: Aead, s: S.ServerState, k: Issue, from: Address)
    requires Lawful(a) && k.Ok() && Welcomes(a, s, k, from)
    ensures S.Route(s, from) == (|s.slots|, M.Find(s.mappings, from, s.time).0, M.Find(s.mappings, from, s.time).1)
    ensures M.Inv(s.mappings, s.time) && s.running && !s.ignoreRequests
    ensures s.protocolId == k.protocolId && s.privateKey == k.privateKey
  {
    SearchesAgree(s, from, k.clientId);
  }

  /** What a readable request from an address without a client does. */
  lemma ReceiveRequest(a: Aead, s: S.ServerState, from: Address, wire: bytes, now: uint64, data: PrivateData, p: Packet,
                       key: Option<Key>)
    requires s.running && !s.ignoreRequests && |wire| > 1 && wire[0] == 0 && p.Request? && p.tokenData == data
    requires S.Route(s, from) == (|s.slots|, M.Find(s.mappings, from, s.time).0, M.Find(s.mappings, from, s.time).1)
    requires var (index, m) := M.Find(s.mappings, from, s.time);
             key == if index == -1 then None else Some(m.entries[index].receiveKey)
    requires ReadPacket(a, wire, key, s.protocolId, now, Some(s.privateKey), S.ALLOWED, None) == (Some((p, 0)), None)
    ensures var seen := Seen(s, from, p, 0);
            var done := S.ProcessRequest(a, seen, from, data);
            S.Receive(a, s, S.Datagram(from, wire), now) == done.(memory := Free(done.memory, s.memory.next))
  {
    hide ReadPacket, M.Find, S.ProcessRequest, S.Route;
  }

  // ----- the challenge -----

  /** A client waiting for its server hears the challenge and answers with it. */
  lemma ChallengeHeard(a: Aead, c: C.Client, n: uint64, sealed: ChallengeData, q: uint64, now: uint64)
    requires Lawful(a) && C.Live(c) && c.state == C.SENDING_REQUEST && c.serverAddress != NoAddress
    ensures var wire := WritePacket(a, Challenge(n, sealed), q, c.readKey, c.token.protocolId);
            var d := C.Receive(a, c, C.Datagram(c.serverAddress, wire), now);
            && d.state == C.SENDING_RESPONSE && d.challengeSequence == n && d.challengeData == sealed
            && C.Live(d) && d.token == c.token && d.readKey == c.readKey && d.writeKey == c.writeKey
            && d.serverAddress == c.serverAddress && d.sequence == c.sequence && d.window == c.window
  {
    hide Lawful, ReadPacket, WritePacket;
    var p := Challenge(n, sealed);
    SealedRoundTrip(a, p, q, c.readKey, c.token.protocolId, now, None, C.ALLOWED, Some(c.window));
  }

  // ----- the response -----

  function ResponseWire(a: Aead, c: C.Client): bytes {
    WritePacket(a, Response(c.challengeSequence, c.challengeData), c.sequence, c.writeKey, c.token.protocolId)
  }

  /** A server that has a mapping for the address and room for the client. */
  ghost predicate Awaits(s: S.ServerState, k: Issue, from: Address, c: C.Client) {
    && Tables(s) && s.running && !s.ignoreResponses && s.protocolId == c.token.protocolId
    && from != NoAddress && KeysAgree(s, from, c)
    && (forall i :: 0 <= i < |s.slots| && s.slots[i].connected ==>
          s.slots[i].address != from && s.slots[i].clientId != k.clientId)
    && s.numConnected < s.maxClients
  }

  /** The token's owner holds slot i and was sent its keep-alive packet. */
  ghost predicate Admitted(r: S.ServerState, k: Issue, from: Address, i: nat, key: Key, protocolId: uint64) {
    && i < |r.slots| && S.Remote(r.slots[i])
    && r.slots[i].address == from && r.slots[i].clientId == k.clientId && r.slots[i].userData == k.userData
    && r.slots[i].lastSend == r.time && r.slots[i].lastReceive == r.time
    && r.trace.Then? && r.trace.last == Sent(i, from, S.KeepAlivePacket(r, i), 0, key, protocolId)
  }

  /** One slot was given away, and a packet sent. */
  ghost predicate Joins(s: S.ServerState, r: S.ServerState, i: nat) {
    && SameOffice(s, r) && r.running == s.running && r.history == s.history && r.challengeKey == s.challengeKey
    && r.trace.Then? && Extends(s.trace, r.trace.past)
    && |r.slots| == |s.slots| && (forall j :: 0 <= j < |s.slots| && j != i ==> r.slots[j] == s.slots[j])
  }

  /** What the server does with a genuine response from an address it has a mapping for. */
  lemma ReceiveResponse(a: Aead, s: S.ServerState, from: Address, wire: bytes, now: uint64, p: Packet, q: uint64)
    requires s.running && !s.ignoreResponses && |wire| > 1 && p.Response?
    requires S.Route(s, from) == (|s.slots|, M.Find(s.mappings, from, s.time).0, M.Find(s.mappings, from, s.time).1)
    requires 0 <= M.Find(s.mappings, from, s.time).0 < s.mappings.num
    requires var (index, m) := M.Find(s.mappings, from, s.time);
             ReadPacket(a, wire, Some(m.entries[index].receiveKey), s.protocolId, now, Some(s.privateKey), S.ALLOWED, None)
             == (Some((p, q)), None)
    ensures var seen := Seen(s, from, p, q);
            var done := S.ProcessResponse(a, seen, from, p.challengeSequence, p.challengeData,
                                          M.Find(s.mappings, from, s.time).0);
            S.Receive(a, s, S.Datagram(from, wire), now) == done.(memory := Free(done.memory, s.memory.next))
  {
    hide ReadPacket, M.Find, S.ProcessResponse, S.Route;
  }

  lemma SeenAwaits(s: S.ServerState, k: Issue, from: Address, c: C.Client, p: Packet, q: uint64)
    requires Awaits(s, k, from, c)
    ensures var (index, m) := M.Find(s.mappings, from, s.time); var seen := Seen(s, from, p, q);
            && Tables(seen) && seen.protocolId == s.protocolId && Routed(seen, from, index, |s.slots|) && 0 <= index < m.num <= |m.entries|
            && m.entries[index].receiveKey == c.writeKey && m.entries[index].sendKey == c.readKey
            && S.Route(s, from) == (|s.slots|, index, m)
            && (forall j :: 0 <= j < |s.slots| && s.slots[j].connected ==>
                  s.slots[j].address != from && s.slots[j].clientId != k.clientId)
  {
    SearchesAgree(s, from, k.clientId);
    RouteTables(s, from);
    FoundKeys(s.mappings, from, s.time);
    hide Tables, M.Find, M.Live;
    TraceTables(s.(mappings := M.Find(s.mappings, from, s.time).1), Seen(s, from, p, q));
  }

  lemma FoundKeys(m: M.Manager, from: Address, time: real)
    requires m.num <= |m.entries|
    ensures var (i, n) := M.Find(m, from, time);
            i >= 0 ==> n.entries[i].receiveKey == m.entries[i].receiveKey && n.entries[i].sendKey == m.entries[i].sendKey
  {
  }

  /** A free slot is taken by the owner of a genuine challenge token. */
  lemma ResponseAdmits(a: Aead, s: S.ServerState, k: Issue, from: Address, n: uint64, sealed: ChallengeData, index: nat)
    requires Lawful(a) && Tables(s) && Routed(s, from, index, |s.slots|)
    requires index < s.mappings.num <= |s.mappings.entries| && s.numConnected < s.maxClients
    requires sealed == SealChallenge(a, ChallengeToken(k.clientId, k.userData), n, s.challengeKey)
    requires forall j :: 0 <= j < |s.slots| && s.slots[j].connected ==>
               s.slots[j].address != from && s.slots[j].clientId != k.clientId
    ensures var r := S.ProcessResponse(a, s, from, n, sealed, index);
            && Tables(r)
            && Admitted(r, k, from, S.FindFree(s.slots, 0, s.maxClients), s.mappings.entries[index].sendKey,
                        s.protocolId)
            && Joins(s, r, S.FindFree(s.slots, 0, s.maxClients))
  {
    FreeSlotExists(s);
    RoutedIsLive(s, from, index);
    FreeIsNotLoopback(s);
    hide Lawful, SealChallenge, S.ConnectClient, S.ProcessResponse, Tables, M.Live, Routed, Joins;
    ResponseConnects(a, s, k, from, n, sealed, index);
    var i := S.FindFree(s.slots, 0, s.maxClients);
    ConnectSends(s, i, from, k.clientId, index, s.mappings.entries[index].timeout, k.userData);
    ConnectTables(s, i, from, k.clientId, index, k.userData);
  }

  lemma FreeIsNotLoopback(s: S.ServerState)
    requires Tables(s)
    ensures s.maxClients > 0 ==> s.running
    ensures var i := S.FindFree(s.slots, 0, s.maxClients); i < s.maxClients ==> !s.slots[i].loopback
  {
    var i := S.FindFree(s.slots, 0, s.maxClients);
    assert i < s.maxClients ==> SlotOk(s.slots[i]);
  }

  lemma RoutedIsLive(s: S.ServerState, from: Address, index: nat)
    requires Tables(s) && Routed(s, from, index, |s.slots|) && index < s.mappings.num
    ensures M.Live(s.mappings.entries[index], s.time) && s.mappings.entries[index].address == from != NoAddress
    ensures s.mappings.entries[index].lastAccess >= s.time
  {
  }

  lemma ResponseConnects(a: Aead, s: S.ServerState, k: Issue, from: Address, n: uint64, sealed: ChallengeData, index: nat)
    requires Lawful(a) && Tables(s) && index < s.mappings.num && s.numConnected < s.maxClients
    requires sealed == SealChallenge(a, ChallengeToken(k.clientId, k.userData), n, s.challengeKey)
    requires forall j :: 0 <= j < |s.slots| && s.slots[j].connected ==>
               s.slots[j].address != from && s.slots[j].clientId != k.clientId
    ensures S.FindFree(s.slots, 0, s.maxClients) < s.maxClients
    ensures S.ProcessResponse(a, s, from, n, sealed, index)
         == S.ConnectClient(s, S.FindFree(s.slots, 0, s.maxClients), from, k.clientId, index,
                            s.mappings.entries[index].timeout, k.userData)
  {
    OpenSealChallenge(a, ChallengeToken(k.clientId, k.userData), n, s.challengeKey);
    FreeSlotExists(s);
    SearchesAgree(s, from, k.clientId);
    hide Lawful, OpenChallenge, SealChallenge, S.ConnectClient, S.FindById, S.FindByAddress, Tables;
  }

  lemma ConnectSends(s: S.ServerState, i: nat, from: Address, id: uint64, e: nat, timeout: int32, userData: UserData)
    requires s.running && i < s.maxClients && !s.slots[i].connected && !s.slots[i].loopback
    requires s.numConnected < s.maxClients
    requires e < s.mappings.num <= |s.mappings.entries| && s.mappings.entries[e].address == from && from != NoAddress
    ensures var r := S.ConnectClient(s, i, from, id, e, timeout, userData);
            && r.trace.Then?
            && r.trace.last == Sent(i, from, S.KeepAlivePacket(s, i), 0, s.mappings.entries[e].sendKey, s.protocolId)
            && r.maxClients == s.maxClients && Joins(s, r, i)
            && r.slots[i].lastSend == r.time && r.slots[i].lastReceive == r.time
  {
  }

  /** A genuine response of the client the mapping belongs to gets it a slot. */
  lemma ResponseAccepted(a: Aead, c: C.Client, s: S.ServerState, k: Issue, from: Address, now: uint64)
    requires Lawful(a) && Awaits(s, k, from, c)
    requires c.challengeData == SealChallenge(a, ChallengeToken(k.clientId, k.userData), c.challengeSequence, s.challengeKey)
    ensures var r := S.Receive(a, s, S.Datagram(from, ResponseWire(a, c)), now);
            && Tables(r) && Admitted(r, k, from, S.FindFree(s.slots, 0, s.maxClients), c.readKey, s.protocolId)
            && Joins(s, r, S.FindFree(s.slots, 0, s.maxClients))
  {
    var p := Response(c.challengeSequence, c.challengeData);
    WrittenHeader(a, p, c.sequence, c.writeKey, c.token.protocolId);
    SealedRoundTrip(a, p, c.sequence, c.writeKey, c.token.protocolId, now, Some(s.privateKey), S.ALLOWED, None);
    SeenAwaits(s, k, from, c, p, c.sequence);
    hide Lawful, ReadPacket, WritePacket, M.Find, Tables, SealChallenge, S.ProcessResponse, S.Receive, Routed, KeysAgree,
         S.FindFree, OpenChallenge, S.Route, Admitted, Joins, Awaits, Extends;
    var index := M.Find(s.mappings, from, s.time).0;
    var seen := Seen(s, from, p, c.sequence);
    SeenShape(s, from, p, c.sequence);
    hide Seen;
    ReceiveResponse(a, s, from, ResponseWire(a, c), now, p, c.sequence);
    ResponseAdmits(a, seen, k, from, c.challengeSequence, c.challengeData, index);
    var done := S.ProcessResponse(a, seen, from, c.challengeSequence, c.challengeData, index);
    AdmittedFrame(done, done.(memory := Free(done.memory, s.memory.next)), k, from,
                  S.FindFree(s.slots, 0, s.maxClients), c.readKey, s.protocolId);
    JoinsLater(s, seen, done, done.(memory := Free(done.memory, s.memory.next)), S.FindFree(s.slots, 0, s.maxClients));
  }

  lemma JoinsLater(s: S.ServerState, seen: S.ServerState, d: S.ServerState, r: S.ServerState, i: nat)
    requires seen == s.(mappings := seen.mappings, memory := seen.memory, trace := seen.trace) && Extends(s.trace, seen.trace)
    requires Joins(seen, d, i) && r == d.(memory := r.memory)
    ensures Joins(s, r, i)
  {
    ExtendsTwice(s.trace, seen.trace, d.trace.past);
    hide Extends;
  }

  lemma AdmittedFrame(d: S.ServerState, r: S.ServerState, k: Issue, from: Address, i: nat, key: Key, id: uint64)
    requires Tables(d) && Admitted(d, k, from, i, key, id) && r == d.(memory := r.memory)
    ensures Tables(r) && Admitted(r, k, from, i, key, id)
  {
    hide Tables;
    TraceTables(d, r);
  }

  // ----- the keep-alive -----

  /** The client hears the keep-alive and is connected, with its index and the server's size. */
  lemma KeepAliveHeard(a: Aead, c: C.Client, index: int32, max: int32, q: uint64, now: uint64)
    requires Lawful(a) && C.Live(c) && c.state == C.SENDING_RESPONSE && c.serverAddress != NoAddress
    requires !AlreadyReceived(c.window, q).0
    ensures var wire := WritePacket(a, KeepAlive(index, max), q, c.readKey, c.token.protocolId);
            var d := C.Receive(a, c, C.Datagram(c.serverAddress, wire), now);
            d.state == C.CONNECTED && C.Live(d) && d.clientIndex == index && d.maxClients == max
  {
    hide Lawful, ReadPacket, WritePacket, AlreadyReceived;
    SealedRoundTrip(a, KeepAlive(index, max), q, c.readKey, c.token.protocolId, now, None, C.ALLOWED, Some(c.window));
  }

  // ----- all four together -----

  /** The wire form of a packet a trace says was sent. */
  function SentWire(a: Aead, e: Effect): bytes
    requires e.Sent?
  {
    WritePacket(a, e.packet, e.sequence, e.key, e.protocolId)
  }

  /** The handshake completes: request, challenge, response and keep-alive, each delivered to the
      other side, take a client that just connected with a generated token and a server that
      welcomes it to a connection on both sides.  The client's index is the server's slot, and the
      slot has the token's client id and user data. */
  lemma HandshakeCompletes(a: Aead, c: C.Client, s: S.ServerState, k: Issue, from: Address, now: uint64)
    requires Lawful(a) && k.Ok() && Aims(a, c, k) && c.state == C.SENDING_REQUEST
    requires c.window == Fresh(|c.window.received|)
    requires Welcomes(a, s, k, from) && now < Token(a, k).expireTimestamp
    ensures var granting := S.Receive(a, s, S.Datagram(from, RequestWire(a, c)), now);
            && granting.trace.Then? && granting.trace.last.Sent?
            && var answering :=
                 C.Receive(a, c, C.Datagram(c.serverAddress, SentWire(a, granting.trace.last)), now);
            var admitting := S.Receive(a, granting, S.Datagram(from, ResponseWire(a, answering)), now);
            && admitting.trace.Then? && admitting.trace.last.Sent?
            && var done :=
                 C.Receive(a, answering, C.Datagram(c.serverAddress, SentWire(a, admitting.trace.last)), now);
            var i := S.FindFree(s.slots, 0, s.maxClients);
            && done.state == C.CONNECTED && C.Live(done)
            && i < |admitting.slots| && S.Remote(admitting.slots[i]) && admitting.slots[i].address == from
            && admitting.slots[i].clientId == k.clientId && admitting.slots[i].userData == k.userData
            && done.clientIndex == S.AsInt32(i) && done.maxClients == S.AsInt32(admitting.maxClients)
  {
    hide Lawful, Tables, SealChallenge, S.Receive, C.Receive, RequestWire, ResponseWire, Token, S.FindFree, WritePacket,
         AlreadyReceived, KeysAgree;
    KeyAgreement(a, c, s, k, from, now);
    TokenFacts(a, k);
    var granting := S.Receive(a, s, S.Datagram(from, RequestWire(a, c)), now);
    var sealed := SealChallenge(a, ChallengeToken(k.clientId, k.userData), s.challengeSequence, s.challengeKey);
    ChallengeHeard(a, c, s.challengeSequence, sealed, s.globalSequence, now);
    var answering := C.Receive(a, c, C.Datagram(c.serverAddress, SentWire(a, granting.trace.last)), now);
    SameKeysAgree(granting, from, c, answering);
    ResponseAccepted(a, answering, granting, k, from, now);
    var admitting := S.Receive(a, granting, S.Datagram(from, ResponseWire(a, answering)), now);
    FreshPasses(|c.window.received|, 0);
    KeepAliveHeard(a, answering, S.AsInt32(S.FindFree(s.slots, 0, s.maxClients)), S.AsInt32(admitting.maxClients), 0, now);
  }

  lemma SameKeysAgree(s: S.ServerState, from: Address, c: C.Client, d: C.Client)
    requires KeysAgree(s, from, c) && d.readKey == c.readKey && d.writeKey == c.writeKey
    ensures KeysAgree(s, from, d)
  {
  }

  lemma FreshPasses(size: nat, q: uint64)
    requires 0 < size <= TWO63 && q < TWO63
    ensures !AlreadyReceived(Fresh(size), q).0
  {
  }

  // ----- payloads -----

  lemma ClientRoute(s: S.ServerState, i: nat)
    requires Tables(s) && i < |s.slots| && S.Remote(s.slots[i])
    ensures S.Route(s, s.slots[i].address) == (i, s.slots[i].encryptionIndex, s.mappings)
    ensures 0 <= s.slots[i].encryptionIndex < s.mappings.num <= |s.mappings.entries|
    ensures s.running && i < s.maxClients && s.slots[i].address != NoAddress
  {
    var from := s.slots[i].address;
    assert Keyed(s.slots[i], s.mappings, s.time);
    var k := S.FindByAddress(s.slots, 0, s.maxClients, from);
    if k < s.maxClients {
      assert SlotOk(s.slots[k]);
    }
  }

  /** What the server does with a payload that its reader lets through for slot i. */
  lemma ReceivePayload(a: Aead, s: S.ServerState, i: nat, wire: bytes, now: uint64, data: bytes, q: uint64,
                       w: Option<Window>)
    requires Tables(s) && i < |s.slots| && S.Remote(s.slots[i]) && |wire| > 1
    requires ReadPacket(a, wire, Some(s.mappings.entries[s.slots[i].encryptionIndex].receiveKey), s.protocolId, now,
                        Some(s.privateKey), S.ALLOWED, Some(s.slots[i].window))
             == (Some((Payload(data), q)), w)
    ensures var r := S.Receive(a, s, S.Datagram(s.slots[i].address, wire), now);
            && |r.slots| == |s.slots|
            && r.slots[i].confirmed && r.slots[i].lastReceive == s.time && Some(r.slots[i].window) == w
            && r.slots[i].queue == Push(s.slots[i].queue, Item(s.memory.next, data, q)).1
            && forall j :: 0 <= j < |s.slots| && j != i ==> r.slots[j] == s.slots[j]
  {
    ClientRoute(s, i);
    hide ReadPacket, Tables, S.Route, Push;
  }

  /** A payload sealed with the key of a connected client's mapping arrives: with a sequence the
      window has not refused it becomes the newest item of that slot's queue, unless the queue is
      full, and it confirms the client; no other slot changes. */
  lemma PayloadArrives(a: Aead, s: S.ServerState, i: nat, data: bytes, q: uint64, now: uint64)
    requires Lawful(a) && Tables(s) && i < |s.slots| && S.Remote(s.slots[i])
    requires 1 <= |data| <= MAX_PAYLOAD_BYTES && !AlreadyReceived(s.slots[i].window, q).0
    ensures 0 <= s.slots[i].encryptionIndex < |s.mappings.entries|
    ensures var key := s.mappings.entries[s.slots[i].encryptionIndex].receiveKey;
            var wire := WritePacket(a, Payload(data), q, key, s.protocolId);
            var r := S.Receive(a, s, S.Datagram(s.slots[i].address, wire), now);
            var x := s.slots[i];
            && |r.slots| == |s.slots|
            && r.slots[i].confirmed && r.slots[i].lastReceive == s.time
            && Contents(r.slots[i].queue)
               == (if |Contents(x.queue)| < |x.queue.slots| then Contents(x.queue) + [Item(s.memory.next, data, q)]
                   else Contents(x.queue))
            && (q < TWO63 ==> AlreadyReceived(r.slots[i].window, q).0)
            && (forall j :: 0 <= j < |s.slots| && j != i ==> r.slots[j] == s.slots[j])
  {
    ClientRoute(s, i);
    var x := s.slots[i];
    var key := s.mappings.entries[x.encryptionIndex].receiveKey;
    SealedRoundTrip(a, Payload(data), q, key, s.protocolId, now, Some(s.privateKey), S.ALLOWED, Some(x.window));
    WrittenHeader(a, Payload(data), q, key, s.protocolId);
    if q < TWO63 {
      PassingIsRemembered(x.window, q);
    }
    PushContents(x.queue, Item(s.memory.next, data, q));
    hide Lawful, ReadPacket, WritePacket, Tables, S.Receive, Push, AlreadyReceived, Contents;
    ReceivePayload(a, s, i, WritePacket(a, Payload(data), q, key, s.protocolId), now, data, q,
                   Some(AlreadyReceived(x.window, q).1));
  }

  /** The other way: a connected client queues a payload of its server. */
  lemma PayloadHeard(a: Aead, c: C.Client, data: bytes, q: uint64, now: uint64)
    requires Lawful(a) && C.Live(c) && c.state == C.CONNECTED && c.serverAddress != NoAddress
    requires 1 <= |data| <= MAX_PAYLOAD_BYTES && !AlreadyReceived(c.window, q).0
    ensures var wire := WritePacket(a, Payload(data), q, c.readKey, c.token.protocolId);
            var d := C.Receive(a, c, C.Datagram(c.serverAddress, wire), now);
            && d.state == C.CONNECTED && d.lastReceive == c.time
            && Contents(d.queue)
               == (if |Contents(c.queue)| < |c.queue.slots| then Contents(c.queue) + [Item(c.memory.next, data, q)]
                   else Contents(c.queue))
            && (q < TWO63 ==> AlreadyReceived(d.window, q).0)
  {
    if q < TWO63 {
      PassingIsRemembered(c.window, q);
    }
    PushContents(c.queue, Item(c.memory.next, data, q));
    hide Lawful, ReadPacket, WritePacket, AlreadyReceived, Contents, Push;
    SealedRoundTrip(a, Payload(data), q, c.readKey, c.token.protocolId, now, None, C.ALLOWED, Some(c.window));
  }
}
