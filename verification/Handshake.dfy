/** The handshake over the updates of both sides: the client's packets are those its updates send,
    the server's those that occur in its trace, and time passes between them. */
module Handshake {
  import opened Types
  import opened Crypto
  import opened Tokens
  import opened Packets
  import opened Replay
  import opened Traces
  import opened Inbox
  import opened ServerTables
  import opened EndToEnd
  import C = Client
  import S = Server
  import M = Mappings
  import H = TokenHistory

  // ----- the end of a server's update -----

  ghost predicate NobodyAt(s: S.ServerState, from: Address) {
    forall i :: 0 <= i < |s.slots| && s.slots[i].connected ==> s.slots[i].address != from
  }

  /** A step that takes no one in, and leaves the mapping of an address without a client alone. */
  ghost predicate Undisturbed(s: S.ServerState, r: S.ServerState, from: Address) {
    && SameOffice(s, r) && r.time == s.time && r.running == s.running && r.challengeKey == s.challengeKey
    && r.history == s.history && r.maxClients == s.maxClients && r.numConnected <= s.numConnected
    && |r.slots| == |s.slots|
    && (forall i :: 0 <= i < |s.slots| && r.slots[i].connected ==>
          && s.slots[i].connected && r.slots[i].address == s.slots[i].address
          && r.slots[i].clientId == s.slots[i].clientId)
    && (NobodyAt(s, from) && from in M.View(s.mappings, s.time) ==>
          from in M.View(r.mappings, r.time) && M.View(r.mappings, r.time)[from] == M.View(s.mappings, s.time)[from])
    && Extends(s.trace, r.trace)
  }

  lemma UndisturbedTwice(s: S.ServerState, r: S.ServerState, u: S.ServerState, from: Address)
    requires Undisturbed(s, r, from) && Undisturbed(r, u, from)
    ensures Undisturbed(s, u, from)
  {
    ExtendsTwice(s.trace, r.trace, u.trace);
    hide M.View, Extends;
    assert NobodyAt(s, from) ==> NobodyAt(r, from);
  }

  lemma SendUndisturbed(s: S.ServerState, i: nat, p: Packet, from: Address)
    requires Tables(s) && i < |s.slots| && S.Remote(s.slots[i])
    ensures Undisturbed(s, S.SendClient(s, i, p), from)
  {
    var x := s.slots[i];
    var r := S.SendClient(s, i, p);
    SendTouches(s, i, p);
    M.TouchView(s.mappings, x.encryptionIndex, x.address, s.time);
    assert r.trace.Then? && r.trace.past == s.trace;
    assert Extends(s.trace, r.trace);
    hide M.View, M.Touch, Tables, Inc64, Keyed, S.SendClient, Extends;
    assert NobodyAt(s, from) ==> x.address != from;
  }

  /** A packet sent renews the mapping of the client it goes to. */
  lemma SendTouches(s: S.ServerState, i: nat, p: Packet)
    requires Tables(s) && i < |s.slots| && S.Remote(s.slots[i])
    ensures var x := s.slots[i];
            && Keyed(x, s.mappings, s.time)
            && S.SendClient(s, i, p).mappings == M.Touch(s.mappings, x.encryptionIndex, x.address, s.time).1
  {
    var x := s.slots[i];
    assert Keyed(x, s.mappings, s.time);
    M.TouchView(s.mappings, x.encryptionIndex, x.address, s.time);
    SendClientTables(s, i, p);
    hide M.View, M.Touch, Tables, Inc64;
  }

  lemma {:induction false} SendFromUndisturbed(s: S.ServerState, i: nat, from: Address)
    requires Tables(s) && i <= s.maxClients
    ensures Undisturbed(s, S.SendFrom(s, i), from)
    decreases s.maxClients - i
  {
    hide Undisturbed, Tables, S.SendClient;
    if i < s.maxClients {
      if S.KeepAliveDue(s, s.slots[i]) {
        var r := S.SendClient(s, i, S.KeepAlivePacket(s, i));
        SendClientTables(s, i, S.KeepAlivePacket(s, i));
        SendUndisturbed(s, i, S.KeepAlivePacket(s, i), from);
        SendFromUndisturbed(r, i + 1, from);
        UndisturbedTwice(s, r, S.SendFrom(r, i + 1), from);
      } else {
        SendFromUndisturbed(s, i + 1, from);
      }
    } else {
      ItselfUndisturbed(s, from);
    }
  }

  lemma ItselfUndisturbed(s: S.ServerState, from: Address)
    ensures Undisturbed(s, s, from)
  {
  }

  lemma DropUndisturbed(s: S.ServerState, i: nat, from: Address)
    requires Tables(s) && i < |s.slots| && S.Remote(s.slots[i])
    ensures Undisturbed(s, S.DisconnectInternal(s, i, false), from)
  {
    RemoteRuns(s, i);
    M.RemoveView(s.mappings, s.slots[i].address, s.time);
    PopAllExtends(S.Box(s, i), i);
    hide M.View, M.Remove, Tables, PopAll, Extends;
    var b := Drain(S.Box(s, i), i);
    ExtendsByOne(s.trace, b.trace, Released(i));
  }

  function Finish(s: S.ServerState): S.ServerState {
    S.CheckTimeouts(S.SendPackets(s))
  }

  lemma FinishUndisturbed(s: S.ServerState, from: Address)
    requires Tables(s)
    ensures Undisturbed(s, Finish(s), from) && Tables(Finish(s)) && RecentlySent(Finish(s))
  {
    hide Tables, Undisturbed, S.SendFrom, S.DisconnectInternal, RecentlySent;
    SendPacketsTables(s);
    var sent := S.SendPackets(s);
    CheckTimeoutsTables(sent);
    ItselfUndisturbed(s, from);
    if s.running {
      SendFromUndisturbed(s, 0, from);
    }
    ItselfUndisturbed(sent, from);
    var i := S.FindTimedOut(sent, 0, sent.maxClients);
    if sent.running && i < sent.maxClients {
      DropUndisturbed(sent, i, from);
    }
    UndisturbedTwice(s, sent, Finish(s), from);
  }

  /** A client that took its slot just now keeps it. */
  lemma {:induction false} SendFromKeepsNew(s: S.ServerState, i: nat, k: nat)
    requires i <= s.maxClients && k < |s.slots| && s.slots[k].lastSend == s.time
    ensures S.SendFrom(s, i).slots[k] == s.slots[k] && S.SendFrom(s, i).time == s.time
    decreases s.maxClients - i
  {
    if i < s.maxClients {
      hide M.Touch;
      SendFromKeepsNew(if S.KeepAliveDue(s, s.slots[i]) then S.SendClient(s, i, S.KeepAlivePacket(s, i)) else s, i + 1, k);
    }
  }

  lemma FinishKeepsNew(s: S.ServerState, k: nat)
    requires k < |s.slots| && s.slots[k].lastSend == s.time && s.slots[k].lastReceive == s.time
    ensures |Finish(s).slots| == |s.slots| && Finish(s).slots[k] == s.slots[k]
  {
    if s.running {
      SendFromKeepsNew(s, 0, k);
      var sent := S.SendFrom(s, 0);
      hide S.SendFrom, Drain, M.Remove;
      assert !S.TimedOut(sent, sent.slots[k]);
    }
  }

  // ----- the client's updates -----

  /** The client may send, and is within the deadlines of its attempt. */
  predicate OnSchedule(c: C.Client, time: real) {
    && c.lastSend + SEND_INTERVAL < time < c.connectStart + C.ExpireSeconds(c.token) as real
    && !C.TimedOut(c.(time := time))
  }

  /** A requesting client sends its request when it is due. */
  lemma RequestSent(a: Aead, c: C.Client, time: real, now: uint64)
    requires C.Live(c) && c.state == C.SENDING_REQUEST && !c.shouldDisconnect && OnSchedule(c, time)
    ensures var d := C.Update(a, c, time, [], now);
            && d == c.(time := time, sequence := d.sequence, lastSend := time, trace := d.trace)
            && d.trace.Then?
            && d.trace.last == Sent(0, c.serverAddress, C.RequestPacket(c), c.sequence, c.writeKey, c.token.protocolId)
  {
    assert C.ReceiveAll(a, c.(time := time), [], now) == c.(time := time);
    hide C.ReceiveAll, C.ExpireSeconds, C.FailOver, C.DisconnectInternal, Inc64;
  }

  /** A requesting client that gets a challenge answers it in the same update. */
  lemma ChallengeAnswered(a: Aead, c: C.Client, n: uint64, sealed: ChallengeData, q: uint64, time: real, now: uint64)
    requires Lawful(a) && C.Live(c) && c.state == C.SENDING_REQUEST && !c.shouldDisconnect
    requires c.serverAddress != NoAddress && OnSchedule(c, time)
    ensures var wire := WritePacket(a, Challenge(n, sealed), q, c.readKey, c.token.protocolId);
            var d := C.Update(a, c, time, [C.Datagram(c.serverAddress, wire)], now);
            && C.Live(d) && d.state == C.SENDING_RESPONSE && !d.shouldDisconnect
            && d.token == c.token && d.readKey == c.readKey && d.writeKey == c.writeKey
            && d.serverAddress == c.serverAddress && d.window == c.window
            && d.challengeSequence == n && d.challengeData == sealed
            && d.trace.Then? && d.trace.last == Sent(0, c.serverAddress, Response(n, sealed), c.sequence, c.writeKey,
                                                 c.token.protocolId)
  {
    var wire := WritePacket(a, Challenge(n, sealed), q, c.readKey, c.token.protocolId);
    var ticked := c.(time := time);
    ChallengeHeard(a, ticked, n, sealed, q, now);
    ChallengeClocks(a, ticked, n, sealed, q, now);
    OneDatagram(a, ticked, C.Datagram(c.serverAddress, wire), now);
    hide Lawful, WritePacket, C.Receive, C.ReceiveAll, C.ExpireSeconds, C.FailOver, C.DisconnectInternal, Inc64;
  }

  lemma ChallengeClocks(a: Aead, c: C.Client, n: uint64, sealed: ChallengeData, q: uint64, now: uint64)
    requires Lawful(a) && C.Live(c) && c.state == C.SENDING_REQUEST && c.serverAddress != NoAddress
    ensures var wire := WritePacket(a, Challenge(n, sealed), q, c.readKey, c.token.protocolId);
            var d := C.Receive(a, c, C.Datagram(c.serverAddress, wire), now);
            && d.time == c.time && d.lastReceive == c.time && d.lastSend == c.lastSend && d.connectStart == c.connectStart
            && d.shouldDisconnect == c.shouldDisconnect
  {
    hide Lawful, ReadPacket, WritePacket;
    SealedRoundTrip(a, Challenge(n, sealed), q, c.readKey, c.token.protocolId, now, None, C.ALLOWED, Some(c.window));
  }

  lemma OneDatagram(a: Aead, c: C.Client, d: C.Datagram, now: uint64)
    ensures C.ReceiveAll(a, c, [d], now) == C.Receive(a, c, d, now)
  {
    assert [d][1..] == [];
  }

  /** A responding client that gets a keep-alive is connected when the update returns. */
  lemma KeepAliveConnects(a: Aead, c: C.Client, index: int32, max: int32, q: uint64, time: real, now: uint64)
    requires Lawful(a) && C.Live(c) && c.state == C.SENDING_RESPONSE && !c.shouldDisconnect
    requires c.serverAddress != NoAddress && !AlreadyReceived(c.window, q).0
    ensures var wire := WritePacket(a, KeepAlive(index, max), q, c.readKey, c.token.protocolId);
            var d := C.Update(a, c, time, [C.Datagram(c.serverAddress, wire)], now);
            d.state == C.CONNECTED && C.Live(d) && d.clientIndex == index && d.maxClients == max
  {
    var wire := WritePacket(a, KeepAlive(index, max), q, c.readKey, c.token.protocolId);
    var ticked := c.(time := time);
    KeepAliveHeard(a, ticked, index, max, q, now);
    KeepAliveClocks(a, ticked, index, max, q, now);
    OneDatagram(a, ticked, C.Datagram(c.serverAddress, wire), now);
    hide Lawful, WritePacket, C.Receive, C.ReceiveAll, C.SendPackets, C.CheckDeadlines;
    StaysConnected(C.Receive(a, ticked, C.Datagram(c.serverAddress, wire), now));
  }

  /** The end of an update in which the server was heard. */
  lemma StaysConnected(c: C.Client)
    requires C.Live(c) && c.state == C.CONNECTED && !c.shouldDisconnect && c.lastReceive == c.time
    ensures var d := C.CheckDeadlines(C.SendPackets(c));
            d.state == C.CONNECTED && C.Live(d) && d.clientIndex == c.clientIndex && d.maxClients == c.maxClients
  {
    hide C.ExpireSeconds, C.FailOver, C.DisconnectInternal, Inc64;
  }

  lemma KeepAliveClocks(a: Aead, c: C.Client, index: int32, max: int32, q: uint64, now: uint64)
    requires Lawful(a) && C.Live(c) && c.state == C.SENDING_RESPONSE && c.serverAddress != NoAddress
    requires !AlreadyReceived(c.window, q).0
    ensures var wire := WritePacket(a, KeepAlive(index, max), q, c.readKey, c.token.protocolId);
            var d := C.Receive(a, c, C.Datagram(c.serverAddress, wire), now);
            d.time == c.time && d.lastReceive == c.time && d.shouldDisconnect == c.shouldDisconnect
  {
    hide Lawful, ReadPacket, WritePacket, AlreadyReceived;
    SealedRoundTrip(a, KeepAlive(index, max), q, c.readKey, c.token.protocolId, now, None, C.ALLOWED, Some(c.window));
  }

  // ----- the server's updates -----

  /** The server has a mapping for the address with the token's keys, made at the given time. */
  ghost predicate Bound(s: S.ServerState, k: Issue, from: Address, made: real) {
    && from in M.View(s.mappings, s.time)
    && M.View(s.mappings, s.time)[from]
       == M.NewMapping(from, k.serverToClientKey, k.clientToServerKey, made, made + k.timeoutSeconds as real,
                       k.timeoutSeconds)
  }

  ghost predicate NobodyLike(s: S.ServerState, k: Issue, from: Address) {
    forall i :: 0 <= i < |s.slots| && s.slots[i].connected ==>
      s.slots[i].address != from && s.slots[i].clientId != k.clientId
  }

  /** Nobody was taken in. */
  ghost predicate NoNewcomers(s: S.ServerState, r: S.ServerState) {
    |r.slots| == |s.slots| && (forall i :: 0 <= i < |s.slots| && r.slots[i].connected ==> s.slots[i].connected)
  }

  /** Slot i apart, nobody has this address or this token's client id. */
  ghost predicate NobodyElse(s: S.ServerState, k: Issue, from: Address, i: nat) {
    forall j :: 0 <= j < |s.slots| && j != i && s.slots[j].connected ==>
      s.slots[j].address != from && s.slots[j].clientId != k.clientId
  }

  /** The challenge a server sends in answer to the token's owner. */
  ghost function ChallengeTo(a: Aead, s: S.ServerState, k: Issue, from: Address): Effect
    requires Lawful(a)
  {
    var sealed := SealChallenge(a, ChallengeToken(k.clientId, k.userData), s.challengeSequence, s.challengeKey);
    OpenSealChallenge(a, ChallengeToken(k.clientId, k.userData), s.challengeSequence, s.challengeKey);
    Sent(GLOBAL, from, Challenge(s.challengeSequence, sealed), s.globalSequence, k.serverToClientKey, s.protocolId)
  }

  /** A server after it granted the request at its time `made`, and until the answer comes. */
  ghost predicate Granting(a: Aead, s: S.ServerState, k: Issue, from: Address, made: real) {
    && Tables(s) && s.running && !s.ignoreResponses && s.protocolId == k.protocolId && from != NoAddress
    && Bound(s, k, from, made) && NobodyLike(s, k, from) && s.numConnected < s.maxClients
  }

  /** The update in which the request arrives. */
  lemma RequestUpdate(a: Aead, c: C.Client, s: S.ServerState, k: Issue, from: Address, time: real, now: uint64)
    requires Lawful(a) && k.Ok() && Aims(a, c, k) && Welcomes(a, s.(time := time), k, from)
    requires now < Token(a, k).expireTimestamp
    ensures var r := S.Update(a, s, time, [S.Datagram(from, RequestWire(a, c))], now);
            && Granting(a, r, k, from, time) && r.time == time && r.challengeKey == s.challengeKey && RecentlySent(r)
            && Occurs(r.trace, ChallengeTo(a, s, k, from))
            && SameOffice(s, r) && r.history == H.FindOrAdd(s.history, from, TokenMac(a, k), time).1
            && SealsSince(s.trace, r.trace, Sealing(k.serverToClientKey, s.globalSequence)) && NoNewcomers(s, r)
  {
    var sv := s.(time := time);
    WelcomeFacts(a, sv, k, from);
    hide Lawful, Tables, RecentlySent, Token, S.Receive, S.ReceiveAll, RequestWire, S.CheckTimeouts, S.SendPackets,
         Welcomes, Aims, FoundMapping, KeysAgree, SameSeats, Challenges, Granting, Occurs, ChallengeTo, TokenMac,
         H.FindOrAdd, SealsSince;
    KeyAgreement(a, c, sv, k, from, now);
    ServerOneDatagram(a, sv, S.Datagram(from, RequestWire(a, c)), now);
    GrantFinishes(a, s, sv, S.Receive(a, sv, S.Datagram(from, RequestWire(a, c)), now), k, from);
  }

  lemma WelcomeFacts(a: Aead, s: S.ServerState, k: Issue, from: Address)
    requires Lawful(a) && k.Ok() && Welcomes(a, s, k, from)
    ensures s.running && !s.ignoreResponses && s.protocolId == k.protocolId && from != NoAddress
    ensures NobodyLike(s, k, from) && s.numConnected < s.maxClients
  {
    hide Lawful, Tables, Token, H.FindOrAdd;
  }

  lemma GrantFinishes(a: Aead, s: S.ServerState, sv: S.ServerState, r: S.ServerState, k: Issue, from: Address)
    requires Lawful(a) && Tables(r) && sv == s.(time := sv.time)
    requires sv.running && !sv.ignoreResponses && sv.protocolId == k.protocolId && from != NoAddress
    requires NobodyLike(sv, k, from) && sv.numConnected < sv.maxClients
    requires SameSeats(sv, r) && Challenges(a, r, sv, k, from)
    requires FoundMapping(r, from) == Some(S.RequestMapping(sv, from, k.Hidden()))
    ensures var z := Finish(r);
            && Granting(a, z, k, from, sv.time) && z.time == sv.time && z.challengeKey == s.challengeKey
            && RecentlySent(z) && Occurs(z.trace, ChallengeTo(a, s, k, from))
            && SameOffice(s, z) && z.history == r.history
            && SealsSince(s.trace, z.trace, Sealing(k.serverToClientKey, s.globalSequence)) && NoNewcomers(s, z)
  {
    ViewOfFound(r, from);
    assert Bound(r, k, from, sv.time) by {
      hide Tables, M.View, FoundMapping, SealChallenge, NobodyLike, Challenges;
    }
    FinishUndisturbed(r, from);
    assert r.trace.last == ChallengeTo(a, s, k, from);
    SealedNext(s.trace, r.trace, Finish(r).trace);
    hide Lawful, Tables, RecentlySent, SealChallenge, Finish, FoundMapping, ChallengeTo, Bound, M.View, SealsSince, Extends, NobodyLike;
    StillBound(r, Finish(r), k, from, sv.time);
    OccursLater(r.trace, Finish(r).trace, ChallengeTo(a, s, k, from));
  }

  /** A sealed packet goes out, and more follows. */
  lemma SealedNext(t: Trace, u: Trace, v: Trace)
    requires u.Then? && Extends(t, u.past) && Seals(u.last) && Extends(u, v)
    ensures SealsSince(t, v, Sealing(u.last.key, u.last.sequence))
  {
    SealingsExtend(t, u.past);
    SealingsExtend(u, v);
    var n := |Sealings(u.past)|;
    assert Sealings(u)[n] == Sealing(u.last.key, u.last.sequence) == Sealings(v)[n];
  }

  lemma StillBound(r: S.ServerState, z: S.ServerState, k: Issue, from: Address, made: real)
    requires Undisturbed(r, z, from) && NobodyLike(r, k, from) && Bound(r, k, from, made)
    ensures Bound(z, k, from, made) && NobodyLike(z, k, from)
  {
    hide M.View, Extends;
    assert NobodyAt(r, from);
  }

  lemma ServerOneDatagram(a: Aead, s: S.ServerState, d: S.Datagram, now: uint64)
    ensures S.ReceiveAll(a, s, [d], now) == S.Receive(a, s, d, now)
  {
    assert [d][1..] == [];
  }

  lemma ViewOfFound(s: S.ServerState, from: Address)
    requires Tables(s)
    ensures FoundMapping(s, from).Some? <==> from in M.View(s.mappings, s.time)
    ensures from in M.View(s.mappings, s.time) ==> FoundMapping(s, from) == Some(M.View(s.mappings, s.time)[from])
  {
    M.FindView(s.mappings, from, s.time);
    hide M.View;
  }

  /** Time passes, no longer than the token's timeout. */
  lemma GrantWaits(a: Aead, s: S.ServerState, k: Issue, from: Address, made: real, time: real)
    requires Granting(a, s, k, from, made) && RecentlySent(s) && OnTime(s, time)
    requires k.timeoutSeconds >= 0 && time <= made + k.timeoutSeconds as real
    ensures Granting(a, s.(time := time), k, from, made)
  {
    M.TickView(s.mappings, s.time, time);
    TickTables(s, time);
    hide Tables, RecentlySent, M.View;
  }

  /** The update in which the response arrives. */
  lemma ResponseUpdate(a: Aead, c: C.Client, s: S.ServerState, k: Issue, from: Address, made: real, time: real, now: uint64)
    requires Lawful(a) && Granting(a, s.(time := time), k, from, made)
    requires c.token.protocolId == k.protocolId && c.readKey == k.serverToClientKey && c.writeKey == k.clientToServerKey
    requires c.challengeData
          == SealChallenge(a, ChallengeToken(k.clientId, k.userData), c.challengeSequence, s.challengeKey)
    ensures var r := S.Update(a, s, time, [S.Datagram(from, ResponseWire(a, c))], now);
            var i := S.FindFree(s.slots, 0, s.maxClients);
            && i < |r.slots| && S.Remote(r.slots[i]) && r.slots[i].address == from
            && r.slots[i].clientId == k.clientId && r.slots[i].userData == k.userData
            && Occurs(r.trace, Sent(i, from, KeepAlive(S.AsInt32(i), S.AsInt32(r.maxClients)), 0, k.serverToClientKey,
                                     s.protocolId))
            && SameOffice(s, r) && r.running && r.history == s.history && r.challengeKey == s.challengeKey
            && SealsSince(s.trace, r.trace, Sealing(k.serverToClientKey, 0)) && NobodyElse(r, k, from, i)
  {
    var sv := s.(time := time);
    ViewOfFound(sv, from);
    ServerOneDatagram(a, sv, S.Datagram(from, ResponseWire(a, c)), now);
    hide Lawful, Tables, S.Receive, S.ReceiveAll, SealChallenge, ResponseWire, S.CheckTimeouts, S.SendPackets,
         M.View, M.Find, S.FindFree, SealsSince;
    assert Awaits(sv, k, from, c);
    hide Awaits, Granting;
    ResponseAccepted(a, c, sv, k, from, now);
    AdmittedFinishes(sv, S.Receive(a, sv, S.Datagram(from, ResponseWire(a, c)), now), k, from,
                     S.FindFree(s.slots, 0, s.maxClients), k.serverToClientKey, s.protocolId);
  }

  lemma AdmittedFinishes(s: S.ServerState, r: S.ServerState, k: Issue, from: Address, i: nat, key: Key, id: uint64)
    requires Tables(r) && Admitted(r, k, from, i, key, id) && from != NoAddress && Joins(s, r, i) && NobodyLike(s, k, from)
    ensures var z := Finish(r);
            && i < |z.slots| && S.Remote(z.slots[i]) && z.slots[i].address == from
            && z.slots[i].clientId == k.clientId && z.slots[i].userData == k.userData
            && Occurs(z.trace, Sent(i, from, KeepAlive(S.AsInt32(i), S.AsInt32(z.maxClients)), 0, key, id))
            && SameOffice(s, z) && z.running == s.running && z.history == s.history && z.challengeKey == s.challengeKey
            && SealsSince(s.trace, z.trace, Sealing(key, 0)) && NobodyElse(z, k, from, i)
  {
    FinishKeepsNew(r, i);
    FinishUndisturbed(r, from);
    SealedNext(s.trace, r.trace, Finish(r).trace);
    OccursLater(r.trace, Finish(r).trace, r.trace.last);
    hide Finish, Tables, M.View, Extends, SealsSince;
  }

  // ----- all together -----

  /** A client that just connected with a generated token. */
  ghost predicate Starts(a: Aead, c: C.Client, k: Issue)
    requires Lawful(a) && k.Ok()
  {
    && Aims(a, c, k) && c.state == C.SENDING_REQUEST && !c.shouldDisconnect && c.window == Fresh(|c.window.received|)
  }

  /** The handshake completes, update by update.  A client that connected with a generated token
      updates at t1 and sends its request; a server willing to take it gets that packet in its
      update at u1; what the server sends reaches the client's update at t2, which sends the
      response; that reaches the server's update at u2, and its keep-alive the client's at t3.
      While the client keeps to its deadlines and the server's updates are on time and no further
      apart than the token's timeout, both sides are connected: slot, client id, user data and
      index agree. */
  lemma HandshakeOverUpdates(a: Aead, c: C.Client, s: S.ServerState, k: Issue, from: Address, t1: real, u1: real, t2: real,
                             u2: real, t3: real, now: uint64)
    requires Lawful(a) && k.Ok() && Starts(a, c, k) && OnSchedule(c, t1) && now < Token(a, k).expireTimestamp
    requires Welcomes(a, s.(time := u1), k, from)
    requires OnSchedule(C.Update(a, c, t1, [], now), t2) && u2 <= u1 + k.timeoutSeconds as real
    requires OnTime(S.Update(a, s, u1, [S.Datagram(from, RequestWire(a, c))], now), u2)
    ensures var c1 := C.Update(a, c, t1, [], now);
            && c1.trace.Then? && c1.trace.last.Sent? && SentWire(a, c1.trace.last) == RequestWire(a, c)
            && var s1 := S.Update(a, s, u1, [S.Datagram(from, SentWire(a, c1.trace.last))], now);
            var challenge := ChallengeTo(a, s, k, from);
            && Occurs(s1.trace, challenge)
            && var c2 := C.Update(a, c1, t2, [C.Datagram(c.serverAddress, SentWire(a, challenge))], now);
            && c2.trace.Then? && c2.trace.last.Sent?
            && var s2 := S.Update(a, s1, u2, [S.Datagram(from, SentWire(a, c2.trace.last))], now);
            var i := S.FindFree(s1.slots, 0, s1.maxClients);
            var index, max := S.AsInt32(i), S.AsInt32(s2.maxClients);
            var welcome := Sent(i, from, KeepAlive(index, max), 0, k.serverToClientKey, k.protocolId);
            && Occurs(s2.trace, welcome)
            && i < |s2.slots| && S.Remote(s2.slots[i]) && s2.slots[i].address == from
            && s2.slots[i].clientId == k.clientId && s2.slots[i].userData == k.userData
            && var c3 := C.Update(a, c2, t3, [C.Datagram(c.serverAddress, SentWire(a, welcome))], now);
            c3.state == C.CONNECTED && C.Live(c3) && c3.clientIndex == index && c3.maxClients == max
  {
    TokenFacts(a, k);
    RequestSent(a, c, t1, now);
    var c1 := C.Update(a, c, t1, [], now);
    RequestUpdate(a, c, s, k, from, u1, now);
    var s1 := S.Update(a, s, u1, [S.Datagram(from, RequestWire(a, c))], now);
    hide Lawful, Tables, RecentlySent, SealChallenge, S.Update, C.Update, Token, S.FindFree, WritePacket, AlreadyReceived,
         Welcomes, OnTime, OnSchedule, Granting, Occurs, C.ExpireSeconds;
    var sealed := SealChallenge(a, ChallengeToken(k.clientId, k.userData), s.challengeSequence, s.challengeKey);
    assert c1.serverAddress == c.serverAddress && c1.token == c.token && c1.readKey == c.readKey;
    ChallengeAnswered(a, c1, s.challengeSequence, sealed, s.globalSequence, t2, now);
    var c2 := C.Update(a, c1, t2, [C.Datagram(c.serverAddress, SentWire(a, ChallengeTo(a, s, k, from)))], now);
    GrantWaits(a, s1, k, from, u1, u2);
    var before := c2.(sequence := c1.sequence);
    assert SentWire(a, c2.trace.last) == ResponseWire(a, before);
    ResponseUpdate(a, before, s1, k, from, u1, u2, now);
    var s2 := S.Update(a, s1, u2, [S.Datagram(from, ResponseWire(a, before))], now);
    FreshPasses(|c.window.received|, 0);
    KeepAliveConnects(a, c2, S.AsInt32(S.FindFree(s1.slots, 0, s1.maxClients)), S.AsInt32(s2.maxClients), 0, t3, now);
  }
}
