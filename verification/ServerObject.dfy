/** The server as the object the source keeps: client slots in an array, the encryption manager and
    the connect token entries as objects of their own, all updated in place.  Every method is tied
    to the function of Server it implements, so what is proved of server runs holds of this
    object. */
module ServerObject {
  import opened Types
  import opened Crypto
  import opened Tokens
  import opened Packets
  import opened Traces
  import opened Memory
  import opened EncryptionTable
  import opened TokenEntries
  import opened ReplayBuffer
  import opened Wire
  import opened TokenWire
  import opened Posting
  import Q = Queue
  import R = Replay
  import I = Inbox
  import M = Mappings
  import H = TokenHistory
  import S = Server
  import opened ServerTables
  import ServerTheorems
  import SR = ServerReadings

  class NetcodeServer {
    /** The cipher all ends use. */
    const cipher: Aead
    const address: Address
    const protocolId: uint64
    const privateKey: Key
    const ignoreRequests: bool
    const ignoreResponses: bool
    var time: real
    var running: bool
    var maxClients: nat
    var numConnectedClients: int
    var globalSequence: uint64
    var challengeSequence: uint64
    var challengeKey: Key
    const clients: array<S.Slot>
    const connectTokenEntries: ConnectTokenEntries
    const encryptionManager: EncryptionManager
    /** Where every allocated packet is, what was done to the world outside, and whether a run-time
        assert on slots, counts or table indices failed. */
    var memory: Ledger
    var trace: Trace
    var fault: bool
    /** What the socket was given. */
    var posts: seq<Post>

    ghost function Repr(): set<object> {
      {this, clients, connectTokenEntries, connectTokenEntries.entries, encryptionManager, encryptionManager.entries}
    }

    ghost predicate Valid()
      reads Repr()
    {
      && encryptionManager.Valid() && maxClients <= clients.Length && connectTokenEntries.entries.Length > 0
      && posts == Wires(cipher, trace)
    }

    ghost function Model(): S.ServerState
      requires Valid()
      reads Repr()
    {
      S.Server(address, protocolId, privateKey, ignoreRequests, ignoreResponses, time, running, maxClients,
               numConnectedClients, globalSequence, challengeSequence, challengeKey, clients[..],
               connectTokenEntries.Model(), encryptionManager.Model(), memory, trace, fault)
    }

    constructor (cipher: Aead, address: Address, protocolId: uint64, privateKey: Key, ignoreRequests: bool, ignoreResponses: bool,
                 time: real)
      ensures Valid() && fresh(Repr()) && this.cipher == cipher
      ensures Model() == S.Create(address, protocolId, privateKey, ignoreRequests, ignoreResponses, time)
    {
      this.cipher := cipher;
      this.address := address;
      this.protocolId := protocolId;
      this.privateKey := privateKey;
      this.ignoreRequests := ignoreRequests;
      this.ignoreResponses := ignoreResponses;
      this.time := time;
      running := false;
      maxClients := 0;
      numConnectedClients := 0;
      globalSequence := TWO63;
      challengeSequence := 0;
      challengeKey := ZERO_KEY;
      clients := new S.Slot[MAX_CLIENTS](_ => S.FreeSlot());
      connectTokenEntries := new ConnectTokenEntries(MAX_CONNECT_TOKEN_ENTRIES);
      encryptionManager := new EncryptionManager(MAX_ENCRYPTION_MAPPINGS);
      memory := NEW_LEDGER;
      trace := Nothing;
      fault := false;
      posts := [];
    }

    // ----- fields that change together -----

    method Note(e: Effect)
      requires Valid() && !OverNetwork(e)
      modifies this`trace
      ensures Valid() && Model() == old(Model()).(trace := Then(old(trace), e))
    {
      trace := Then(trace, e);
    }

    method Fail()
      requires Valid()
      modifies this`fault
      ensures Valid() && Model() == old(Model()).(fault := true)
    {
      fault := true;
    }

    method Allocate() returns (id: nat)
      requires Valid()
      modifies this`memory
      ensures Valid() && id == Alloc(old(memory)).0 && Model() == old(Model()).(memory := Alloc(old(memory)).1)
    {
      var (next, ledger) := Alloc(memory);
      memory := ledger;
      return next;
    }

    method FreeOne(id: nat)
      requires Valid()
      modifies this`memory
      ensures Valid() && Model() == old(Model()).(memory := Free(old(memory), id))
    {
      memory := Free(memory, id);
    }

    method PutSlot(i: nat, x: S.Slot)
      requires Valid() && i < clients.Length
      modifies clients
      ensures Valid() && Model() == S.PutSlot(old(Model()), i, x)
    {
      clients[i] := x;
    }

    method CountClients(change: int)
      requires Valid()
      modifies this`numConnectedClients
      ensures Valid() && Model() == old(Model()).(numConnected := old(numConnectedClients) + change)
    {
      numConnectedClients := numConnectedClients + change;
    }

    // ----- lookups: the first slot, or maxClients for the source's -1 -----

    method FindClientIndexById(id: uint64) returns (k: nat)
      requires Valid()
      ensures k == S.FindById(clients[..], 0, maxClients, id)
    {
      k := 0;
      while k < maxClients
        invariant k <= maxClients
        invariant S.FindById(clients[..], 0, maxClients, id) == S.FindById(clients[..], k, maxClients, id)
      {
        if clients[k].connected && clients[k].clientId == id {
          return k;
        }
        k := k + 1;
      }
    }

    method FindClientIndexByAddress(from: Address) returns (k: nat)
      requires Valid()
      ensures k == S.FindByAddress(clients[..], 0, maxClients, from)
    {
      k := 0;
      while k < maxClients
        invariant k <= maxClients
        invariant S.FindByAddress(clients[..], 0, maxClients, from) == S.FindByAddress(clients[..], k, maxClients, from)
      {
        if clients[k].connected && SameAddress(clients[k].address, from) {
          return k;
        }
        k := k + 1;
      }
    }

    method FindFreeClientIndex() returns (k: nat)
      requires Valid()
      ensures k == S.FindFree(clients[..], 0, maxClients)
    {
      k := 0;
      while k < maxClients
        invariant k <= maxClients
        invariant S.FindFree(clients[..], 0, maxClients) == S.FindFree(clients[..], k, maxClients)
      {
        if !clients[k].connected {
          return k;
        }
        k := k + 1;
      }
    }

    // ----- sending -----

    /** Hands the bytes of a packet to the socket, which takes none for an address of type NONE. */
    method PostPacket(slot: int, to: Address, packet: Packet, sequence: uint64, key: Key)
      requires Lawful(cipher) && Valid() && (packet.Payload? ==> |packet.data| <= MAX_PAYLOAD_BYTES)
      modifies this`trace, this`posts
      ensures Valid()
      ensures Model() == old(Model()).(trace := Then(old(trace), Sent(slot, to, packet, sequence, key, protocolId)))
      ensures to != NoAddress ==>
                posts == old(posts) + [Post(to, WritePacket(cipher, packet, sequence, key, protocolId))]
    {
      hide WritePacket, Lawful;
      var packetData := WriteOut(cipher, packet, sequence, key, protocolId);
      if to != NoAddress {
        posts := posts + [Post(to, packetData)];
      }
      trace := Then(trace, Sent(slot, to, packet, sequence, key, protocolId));
    }

    method SendGlobalPacket(packet: Packet, to: Address, packetKey: Key)
      requires Lawful(cipher) && Valid() && !packet.Payload?
      modifies this`trace, this`posts, this`globalSequence
      ensures Valid() && Model() == S.SendGlobal(old(Model()), to, packet, packetKey)
    {
      hide Lawful;
      PostPacket(GLOBAL, to, packet, globalSequence, packetKey);
      globalSequence := Inc64(globalSequence);
    }

    method SendClientPacket(packet: Packet, i: nat)
      requires Lawful(cipher) && Valid() && i < clients.Length && (packet.Payload? ==> |packet.data| <= MAX_PAYLOAD_BYTES)
      modifies this`trace, this`posts, this`fault, clients, encryptionManager.entries
      ensures Valid() && Model() == S.SendClient(old(Model()), i, packet)
    {
      hide M.Touch, Lawful;
      var x := clients[i];
      if i >= maxClients || !x.connected || x.loopback
         || !(0 <= x.encryptionIndex < encryptionManager.numEncryptionMappings) {
        Fail();
        return;
      }
      var ok := TouchMapping(x.encryptionIndex, x.address);
      if !ok {
        Fail();
        return;
      }
      Transmit(packet, i, encryptionManager.entries[x.encryptionIndex].sendKey);
    }

    method TouchMapping(index: nat, to: Address) returns (ok: bool)
      requires Valid() && index < encryptionManager.numEncryptionMappings
      modifies encryptionManager.entries
      ensures Valid()
      ensures (ok, Model()) == var (found, m) := M.Touch(old(Model()).mappings, index, to, time);
                               (found, old(Model()).(mappings := m))
      ensures !ok ==> Model() == old(Model())
    {
      hide M.Touch;
      ok := encryptionManager.Touch(index, to, time);
    }

    method Transmit(packet: Packet, i: nat, packetKey: Key)
      requires Lawful(cipher) && Valid() && i < clients.Length && (packet.Payload? ==> |packet.data| <= MAX_PAYLOAD_BYTES)
      modifies this`trace, this`posts, clients
      ensures Valid()
      ensures Model() == var s := old(Model());
                         var x := s.slots[i];
                         s.(slots := s.slots[i := x.(sequence := Inc64(x.sequence), lastSend := s.time)],
                            trace := Then(s.trace, Sent(i, x.address, packet, x.sequence, packetKey, s.protocolId)))
    {
      hide Lawful;
      var x := clients[i];
      PostPacket(i, x.address, packet, x.sequence, packetKey);
      PutSlot(i, x.(sequence := Inc64(x.sequence), lastSend := time));
    }

    method SendKeepAlive(i: nat)
      requires Lawful(cipher) && Valid() && i < clients.Length
      modifies this`trace, this`posts, this`fault, clients, encryptionManager.entries
      ensures Valid() && Model() == S.SendClient(old(Model()), i, S.KeepAlivePacket(old(Model()), i))
    {
      SendClientPacket(KeepAlive(S.AsInt32(i), S.AsInt32(maxClients)), i);
    }

    // ----- disconnecting -----

    /** Pops and frees until the queue of slot i is empty, then clears it. */
    method DrainQueue(i: nat)
      requires Valid() && i < clients.Length
      modifies this`memory, this`trace, clients
      ensures Valid() && Model() == S.WithBox(old(Model()), i, I.Drain(S.Box(old(Model()), i), i))
    {
      hide Q.Pop;
      ghost var before := Model();
      while true
        invariant Valid()
        invariant I.PopAll(S.Box(Model(), i), i) == I.PopAll(S.Box(before, i), i)
        invariant Model() == S.WithBox(before, i, S.Box(Model(), i))
        decreases clients[i].queue.num
      {
        var (packet, rest) := Q.Pop(clients[i].queue);
        if packet.None? {
          break;
        }
        PopsOne(clients[i].queue);
        DropOldest(i, packet.value, rest);
      }
      ClearQueue(i);
    }

    method DropOldest(i: nat, packet: Q.Item, rest: Q.Ring)
      requires Valid() && i < clients.Length
      modifies this`memory, this`trace, clients
      ensures Valid()
      ensures Model() == S.WithBox(old(Model()), i, I.Inbox(rest, Free(old(memory), packet.id),
                                                            Then(old(trace), Discarded(i, packet))))
    {
      FreeOne(packet.id);
      Note(Discarded(i, packet));
      PutSlot(i, clients[i].(queue := rest));
    }

    method ClearQueue(i: nat)
      requires Valid() && i < clients.Length
      modifies this`memory, clients
      ensures Valid() && Model() == S.WithBox(old(Model()), i, I.Clear(S.Box(old(Model()), i)))
    {
      var cleared := I.Clear(I.Inbox(clients[i].queue, memory, trace));
      memory := cleared.memory;
      PutSlot(i, clients[i].(queue := cleared.queue));
    }

    method DisconnectClientInternal(i: nat, sendDisconnectPackets: bool)
      requires Lawful(cipher) && Valid() && i < clients.Length
      modifies Repr()
      ensures Valid() && Model() == S.DisconnectInternal(old(Model()), i, sendDisconnectPackets)
      ensures maxClients == old(maxClients)
    {
      hide S.SendClient, S.Release, Lawful;
      ghost var before := Model();
      if !running || i >= maxClients || !clients[i].connected || clients[i].loopback {
        Fail();
        return;
      }
      if sendDisconnectPackets {
        var n := 0;
        while n < NUM_DISCONNECT_PACKETS
          invariant n <= NUM_DISCONNECT_PACKETS && Valid() && maxClients == before.maxClients
          invariant S.SendDisconnects(before, i, NUM_DISCONNECT_PACKETS)
                 == S.SendDisconnects(Model(), i, NUM_DISCONNECT_PACKETS - n)
        {
          SendClientPacket(Disconnect, i);
          n := n + 1;
        }
      }
      ReleaseSlot(i);
    }

    method ReleaseSlot(i: nat)
      requires Valid() && i < clients.Length
      modifies Repr()
      ensures Valid() && Model() == S.Release(old(Model()), i)
    {
      hide I.Drain, M.Remove;
      DrainQueue(i);
      var x := clients[i];
      var _ := encryptionManager.Remove(x.address, time);
      PutSlot(i, S.Vacated(x).(window := R.Fresh(|x.window.received|)));
      Note(Released(i));
      CountDown();
    }

    /** One client less; the source asserts that the count does not fall below zero. */
    method CountDown()
      requires Valid()
      modifies this`numConnectedClients, this`fault
      ensures Valid()
      ensures Model() == old(Model()).(numConnected := old(numConnectedClients) - 1,
                                       fault := old(fault) || old(numConnectedClients) < 1)
    {
      if numConnectedClients < 1 {
        Fail();
      }
      CountClients(-1);
    }

    method DisconnectClient(i: nat)
      requires Lawful(cipher) && Valid() && (running ==> i < maxClients && !clients[i].loopback)
      modifies Repr()
      ensures Valid() && Model() == S.DisconnectClient(old(Model()), i)
    {
      hide S.DisconnectInternal;
      if !running {
        return;
      }
      if !clients[i].connected {
        return;
      }
      DisconnectClientInternal(i, true);
    }

    method DisconnectAllClients()
      requires Lawful(cipher) && Valid()
      modifies Repr()
      ensures Valid() && Model() == S.DisconnectAll(old(Model()))
    {
      hide S.DisconnectInternal;
      if !running {
        return;
      }
      ghost var before := Model();
      var i := 0;
      while i < maxClients
        invariant i <= maxClients == before.maxClients && Valid()
        invariant S.DisconnectFrom(before, 0) == S.DisconnectFrom(Model(), i)
        decreases before.maxClients - i
      {
        if clients[i].connected && !clients[i].loopback {
          DisconnectClientInternal(i, true);
        }
        i := i + 1;
      }
    }

    // ----- starting and stopping -----

    method ClearCounts()
      requires Valid()
      modifies this`running, this`maxClients, this`numConnectedClients
      ensures Valid() && Model() == old(Model()).(running := false, maxClients := 0, numConnected := 0)
    {
      running := false;
      maxClients := 0;
      numConnectedClients := 0;
    }

    method ClearSequences()
      requires Valid()
      modifies this`globalSequence, this`challengeSequence, this`challengeKey
      ensures Valid()
      ensures Model() == old(Model()).(globalSequence := 0, challengeSequence := 0, challengeKey := ZERO_KEY)
    {
      globalSequence := 0;
      challengeSequence := 0;
      challengeKey := ZERO_KEY;
    }

    method Stop()
      requires Lawful(cipher) && Valid()
      modifies Repr()
      ensures Valid() && Model() == S.Stop(old(Model()))
    {
      hide S.DisconnectAll, H.Reset, M.Reset;
      if !running {
        return;
      }
      DisconnectAllClients();
      ClearCounts();
      ClearSequences();
      connectTokenEntries.Reset();
      encryptionManager.Reset();
      Note(Stopped);
    }

    method OpenSlots(max: nat, key: Key)
      requires Valid() && max <= clients.Length
      modifies this`running, this`maxClients, this`numConnectedClients, this`challengeSequence, this`challengeKey
      ensures Valid()
      ensures Model() == old(Model()).(running := true, maxClients := max, numConnected := 0, challengeSequence := 0,
                                       challengeKey := key)
    {
      ClearCounts();
      running := true;
      maxClients := max;
      challengeSequence := 0;
      challengeKey := key;
    }

    /** The random challenge key is an input. */
    method Start(max: nat, key: Key)
      requires Lawful(cipher) && Valid() && 0 < max <= clients.Length
      modifies Repr()
      ensures Valid() && Model() == S.Start(old(Model()), max, key)
    {
      assert !running ==> S.Stop(Model()) == Model();
      hide S.Stop, Q.Empty;
      if running {
        Stop();
      }
      OpenSlots(max, key);
      InitQueues();
      Note(Started);
    }

    method InitQueues()
      requires Valid()
      modifies clients
      ensures Valid() && Model() == old(Model()).(slots := S.InitQueues(old(clients[..]), old(maxClients)))
    {
      ghost var before := clients[..];
      var i := 0;
      while i < maxClients
        invariant i <= maxClients && clients[..] == S.InitQueues(before, i)
      {
        clients[i] := clients[i].(queue := Q.Empty(|clients[i].queue.slots|));
        i := i + 1;
      }
    }

    // ----- connection requests -----

    method Whitelists(servers: seq<Address>) returns (found: bool)
      ensures found <==> S.Whitelisted(address, servers)
    {
      found := false;
      var i := 0;
      while i < |servers|
        invariant i <= |servers|
        invariant found <==> exists j :: 0 <= j < i && SameAddress(address, servers[j])
      {
        if SameAddress(address, servers[i]) {
          found := true;
        }
        i := i + 1;
      }
    }

    method SendChallenge(from: Address, t: PrivateToken)
      requires Lawful(cipher) && Valid()
      modifies this`challengeSequence, this`trace, this`posts, this`globalSequence
      ensures Valid() && Model() == S.SendChallenge(cipher, old(Model()), from, t)
    {
      hide Lawful, SealChallenge;
      var sealed := SealChallengeToken(ChallengeToken(t.clientId, t.userData));
      var sequence := challengeSequence;
      Note(Granted(from, t.clientId, t.userData, sequence, t.serverToClientKey));
      challengeSequence := Inc64(challengeSequence);
      SendGlobalPacket(Challenge(sequence, sealed), from, t.serverToClientKey);
    }

    /** Writes the challenge token to a buffer and encrypts it there. */
    method SealChallengeToken(t: ChallengeToken) returns (sealed: ChallengeData)
      requires Lawful(cipher)
      ensures sealed == SealChallenge(cipher, t, challengeSequence, challengeKey)
    {
      var buffer := new byte[CHALLENGE_TOKEN_BYTES];
      WriteChallengeTo(t, buffer);
      assert buffer[..CHALLENGE_TOKEN_BYTES] == buffer[..];
      var text := buffer[..CHALLENGE_TOKEN_BYTES - MAC_BYTES];
      var c := new Cursor(buffer);
      assert text == WriteChallenge(t)[..CHALLENGE_TOKEN_BYTES - MAC_BYTES];
      hide WriteChallenge;
      c.Overwrite(0, cipher.seal(challengeKey, Nonce(challengeSequence), [], text));
      sealed := buffer[..];
    }

    /** Decrypts the challenge token in its buffer and reads it. */
    method OpenChallengeToken(data: ChallengeData, sequence: uint64) returns (t: Option<ChallengeToken>)
      requires Lawful(cipher)
      ensures t == OpenChallenge(cipher, data, sequence, challengeKey)
    {
      hide Lawful, ReadChallenge;
      var buffer := new byte[CHALLENGE_TOKEN_BYTES](i requires 0 <= i < CHALLENGE_TOKEN_BYTES => data[i]);
      assert buffer[..] == data && buffer[0..CHALLENGE_TOKEN_BYTES] == data;
      var plain := DecryptAt(cipher, buffer, 0, CHALLENGE_TOKEN_BYTES, challengeKey, Nonce(sequence), []);
      if plain.None? {
        return None;
      }
      assert buffer[..] == plain.value + data[|plain.value|..];
      t := ReadChallengeFrom(buffer);
    }

    /** The checks before the token history is asked. */
    method Accepts(from: Address, t: PrivateToken) returns (ok: bool)
      requires Valid()
      ensures ok <==> S.RequestAcceptable(Model(), from, t)
    {
      var whitelisted := Whitelists(t.servers);
      if !whitelisted {
        return false;
      }
      var byAddress := FindClientIndexByAddress(from);
      if byAddress != maxClients {
        return false;
      }
      var byId := FindClientIndexById(t.clientId);
      return byId == maxClients;
    }

    method ProcessConnectionRequest(from: Address, data: PrivateData)
      requires Lawful(cipher) && Valid()
      modifies Repr()
      ensures Valid() && Model() == S.ProcessRequest(cipher, old(Model()), from, data)
    {
      hide Lawful, ReadPrivate, S.SendChallenge, S.SendGlobal, S.RequestAcceptable, S.AskHistory, M.Add;
      var buffer := new byte[CONNECT_TOKEN_PRIVATE_BYTES](i requires 0 <= i < CONNECT_TOKEN_PRIVATE_BYTES => data[i]);
      assert buffer[..] == data;
      var token := ReadPrivateFrom(buffer);
      if token.None? {
        return;
      }
      var t := token.value;
      var acceptable := Accepts(from, t);
      if !acceptable {
        return;
      }
      var allowed := AskHistory(from, S.RequestMac(data));
      if allowed {
        GrantRequest(from, t);
      }
    }

    method AskHistory(from: Address, mac: Mac) returns (allowed: bool)
      requires Valid()
      modifies this`trace, connectTokenEntries.entries
      ensures Valid() && (allowed, Model()) == S.AskHistory(old(Model()), from, mac)
    {
      hide H.FindOrAdd;
      allowed := connectTokenEntries.FindOrAdd(from, mac, time);
      Note(Shown(from, mac, time));
    }

    /** The part of the request after the token history. */
    method GrantRequest(from: Address, t: PrivateToken)
      requires Lawful(cipher) && Valid()
      modifies this, encryptionManager, encryptionManager.entries
      ensures Valid()
      ensures Model() == var s := old(Model());
                         if s.numConnected == s.maxClients then S.SendGlobal(s, from, Denied, t.serverToClientKey)
                         else
                           var (added, mappings) := M.Add(s.mappings, S.RequestMapping(s, from, t), s.time);
                           if !added then s else S.SendChallenge(cipher, s.(mappings := mappings), from, t)
    {
      hide S.SendChallenge, S.SendGlobal, M.Add;
      if numConnectedClients == maxClients {
        SendGlobalPacket(Denied, from, t.serverToClientKey);
        return;
      }
      var added := encryptionManager.Add(from, t.serverToClientKey, t.clientToServerKey, time,
                                         time + t.timeoutSeconds as real, t.timeoutSeconds);
      if added {
        SendChallenge(from, t);
      }
    }

    // ----- connection responses -----

    /** Gives slot i to a client and confirms it with a keep-alive packet. */
    method ConnectClient(i: nat, from: Address, id: uint64, encryptionIndex: int, timeout: int32, userData: UserData)
      requires Lawful(cipher) && Valid() && i < clients.Length
      modifies Repr()
      ensures Valid() && Model() == S.ConnectClient(old(Model()), i, from, id, encryptionIndex, timeout, userData)
    {
      hide S.SendClient, S.Seat;
      if !running || i >= maxClients || numConnectedClients + 1 > maxClients || clients[i].connected
         || !(0 <= encryptionIndex < encryptionManager.numEncryptionMappings) {
        Fail();
        return;
      }
      SeatClient(i, clients[i].(connected := true, timeout := timeout, encryptionIndex := encryptionIndex,
                                clientId := id, sequence := 0, address := from, lastSend := time, lastReceive := time,
                                userData := userData));
      SendKeepAlive(i);
    }

    method SeatClient(i: nat, x: S.Slot)
      requires Valid() && i < clients.Length && 0 <= x.encryptionIndex < encryptionManager.numEncryptionMappings
      modifies this`numConnectedClients, this`trace, clients, encryptionManager.entries
      ensures Valid() && Model() == S.Seat(old(Model()), i, x)
    {
      hide M.SetExpireTime;
      CountClients(1);
      var keys := S.KeysOf(encryptionManager.entries[x.encryptionIndex]);
      encryptionManager.SetExpireTime(x.encryptionIndex, -1.0);
      PutSlot(i, x);
      Note(Accepted(i, x.address, x.clientId, keys));
    }

    method ProcessConnectionResponse(from: Address, sequence: uint64, data: ChallengeData,
                                     encryptionIndex: int)
      requires Lawful(cipher) && Valid()
      modifies Repr()
      ensures Valid() && Model() == S.ProcessResponse(cipher, old(Model()), from, sequence, data, encryptionIndex)
    {
      hide OpenChallenge, S.SendGlobal, S.ConnectClient;
      var token := OpenChallengeToken(data, sequence);
      if token.None? || encryptionIndex == -1 {
        return;
      }
      if !(0 <= encryptionIndex < encryptionManager.numEncryptionMappings) {
        Fail();
        return;
      }
      var byAddress := FindClientIndexByAddress(from);
      if byAddress < maxClients {
        return;
      }
      var byId := FindClientIndexById(token.value.clientId);
      if byId < maxClients {
        return;
      }
      AdmitClient(from, token.value, encryptionIndex);
    }

    /** The part of the response after the duplicate checks. */
    method AdmitClient(from: Address, t: ChallengeToken, encryptionIndex: nat)
      requires Lawful(cipher) && Valid() && encryptionIndex < encryptionManager.numEncryptionMappings
      modifies Repr()
      ensures Valid()
      ensures Model() == var s := old(Model());
                         var entry := s.mappings.entries[encryptionIndex];
                         var i := S.FindFree(s.slots, 0, s.maxClients);
                         if s.numConnected == s.maxClients then S.SendGlobal(s, from, Denied, entry.sendKey)
                         else if i == s.maxClients then s.(fault := true)
                         else S.ConnectClient(s, i, from, t.clientId, encryptionIndex, entry.timeout, t.userData)
    {
      hide S.SendGlobal, S.ConnectClient;
      var entry := encryptionManager.entries[encryptionIndex];
      if numConnectedClients == maxClients {
        SendGlobalPacket(Denied, from, entry.sendKey);
        return;
      }
      var i := FindFreeClientIndex();
      if i == maxClients {
        Fail();
        return;
      }
      ConnectClient(i, from, t.clientId, encryptionIndex, entry.timeout, t.userData);
    }

    // ----- processing -----

    method Hear(i: nat)
      requires Valid() && i < clients.Length
      modifies clients
      ensures Valid() && Model() == S.Hear(old(Model()), i)
    {
      PutSlot(i, clients[i].(lastReceive := time, confirmed := true));
    }

    /** netcode_packet_queue_push on the queue of slot i: a full queue frees the packet. */
    method Enqueue(i: nat, from: Address, item: Q.Item)
      requires Valid() && i < clients.Length
      modifies this`memory, this`trace, clients
      ensures Valid() && Model() == S.WithBox(old(Model()), i, I.Enqueue(S.Box(old(Model()), i), i, from, item))
    {
      hide Q.Push;
      var (queued, queue) := Q.Push(clients[i].queue, item);
      if queued {
        PutSlot(i, clients[i].(queue := queue));
        Note(Queued(i, from, item));
      } else {
        PutSlot(i, clients[i].(queue := queue));
        FreeOne(item.id);
        Note(Dropped(i, item));
      }
    }

    /** The cases of netcode_server_process_packet that free their packet at the end. */
    method Handle(from: Address, packet: Packet, encryptionIndex: int, client: nat)
      requires Lawful(cipher) && Valid() && client <= clients.Length
      modifies Repr()
      ensures Valid() && Model() == S.Handle(cipher, old(Model()), from, packet, encryptionIndex, client)
    {
      hide S.ProcessRequest, S.ProcessResponse, S.Hear, S.DisconnectInternal;
      match packet {
        case Request(_, _, _, _, data) =>
          if !ignoreRequests {
            ProcessConnectionRequest(from, data);
          }
        case Response(n, data) =>
          if !ignoreResponses {
            ProcessConnectionResponse(from, n, data, encryptionIndex);
          }
        case KeepAlive(_, _) =>
          if client < clients.Length {
            Hear(client);
          }
        case Disconnect =>
          if client < clients.Length {
            DisconnectClientInternal(client, false);
          }
        case _ =>
      }
    }

    method ProcessPacket(from: Address, packet: Packet, sequence: uint64, encryptionIndex: int, client: nat,
                         id: nat)
      requires Lawful(cipher) && Valid() && client <= clients.Length
      modifies Repr()
      ensures Valid()
      ensures Model() == S.ProcessPacket(cipher, old(Model()), from, packet, sequence, encryptionIndex, client, id)
    {
      hide S.Handle, I.Enqueue;
      if packet.Payload? && client < clients.Length {
        Hear(client);
        Enqueue(client, from, Q.Item(id, packet.data, sequence));
        return;
      }
      Handle(from, packet, encryptionIndex, client);
      FreeOne(id);
    }

    /** The slot and the encryption index a datagram is read with. */
    method Route(from: Address) returns (client: nat, index: int)
      requires Valid()
      modifies encryptionManager.entries
      ensures Valid()
      ensures var (c, k, mappings) := S.Route(old(Model()), from);
              client == c && index == k && Model() == old(Model()).(mappings := mappings)
      ensures client <= clients.Length
    {
      hide M.Find;
      client := FindClientIndexByAddress(from);
      if client < maxClients {
        index := clients[client].encryptionIndex;
        return;
      }
      index := encryptionManager.Find(from, time);
      client := clients.Length;
    }

    /** Reads a packet with the window of slot `client`, if there is one. */
    method ReadWith(d: S.Datagram, now: uint64, client: nat, key: Option<Key>) returns (reading: Reading)
      requires Lawful(cipher) && Valid() && client <= clients.Length
      modifies clients
      ensures Valid()
      ensures var (r, window) := S.Read(cipher, old(Model()), d, now, client, key);
              reading == r && Model() == S.PutWindow(old(Model()), client, window)
    {
      hide Lawful, ReadPacket;
      var packetData := new byte[|d.data|](i requires 0 <= i < |d.data| => d.data[i]);
      assert packetData[..packetData.Length] == d.data && packetData[..] == d.data;
      if client >= clients.Length {
        reading := ReadPacketFrom(cipher, packetData, packetData.Length, key, protocolId, now, Some(privateKey),
                                  S.ALLOWED, null);
      } else {
        var moved;
        reading, moved := ReadAgainst(packetData, now, clients[client].window, key);
        PutSlot(client, clients[client].(window := moved));
      }
    }

    /** Reads the packet with a window held in an array while it is read. */
    method ReadAgainst(packetData: array<byte>, now: uint64, w: R.Window, key: Option<Key>)
      returns (reading: Reading, moved: R.Window)
      requires Lawful(cipher) && |w.received| > 0
      modifies packetData
      ensures (reading, Some(moved))
           == ReadPacket(cipher, old(packetData[..]), key, protocolId, now, Some(privateKey), S.ALLOWED, Some(w))
    {
      hide Lawful, ReadPacket;
      var window := new ReplayProtection.Holding(w);
      assert packetData[..packetData.Length] == packetData[..];
      reading := ReadPacketFrom(cipher, packetData, packetData.Length, key, protocolId, now, Some(privateKey), S.ALLOWED,
                                window);
      moved := window.Snapshot();
    }

    method ReadAndProcessPacket(d: S.Datagram, now: uint64)
      requires Lawful(cipher) && Valid()
      modifies Repr()
      ensures Valid() && Model() == S.Receive(cipher, old(Model()), d, now)
    {
      hide S.Route, ReadPacket, S.PutWindow, S.ProcessPacket, Lawful, Wires;
      if !running || |d.data| <= 1 {
        return;
      }
      var client, index := Route(d.from);
      if index != -1 && !(0 <= index < encryptionManager.numEncryptionMappings) {
        Fail();
        return;
      }
      if index == -1 && d.data[0] != 0 {
        return;
      }
      var key := if index == -1 then None else Some(encryptionManager.entries[index].receiveKey);
      var reading := ReadWith(d, now, client, key);
      if reading.Some? {
        var id := Allocate();
        Note(Processed(d.from, reading.value.0, reading.value.1, key));
        ProcessPacket(d.from, reading.value.0, reading.value.1, index, client, id);
      }
    }

    method ReceivePackets(datagrams: seq<S.Datagram>, now: uint64)
      requires Lawful(cipher) && Valid()
      modifies Repr()
      ensures Valid() && Model() == S.ReceiveAll(cipher, old(Model()), datagrams, now)
    {
      hide S.Receive;
      ghost var before := Model();
      var i := 0;
      while i < |datagrams|
        invariant i <= |datagrams| && Valid()
        invariant S.ReceiveAll(cipher, before, datagrams, now) == S.ReceiveAll(cipher, Model(), datagrams[i..], now)
      {
        assert datagrams[i..][1..] == datagrams[i + 1..];
        ReadAndProcessPacket(datagrams[i], now);
        i := i + 1;
      }
    }

    // ----- update -----

    method SendPackets()
      requires Lawful(cipher) && Valid()
      modifies this`trace, this`posts, this`fault, clients, encryptionManager.entries
      ensures Valid() && Model() == S.SendPackets(old(Model()))
    {
      hide S.SendClient;
      if !running {
        return;
      }
      ghost var before := Model();
      var i := 0;
      while i < maxClients
        invariant i <= maxClients == before.maxClients && Valid()
        invariant S.SendFrom(before, 0) == S.SendFrom(Model(), i)
      {
        if clients[i].connected && !clients[i].loopback && clients[i].lastSend + SEND_INTERVAL <= time {
          SendKeepAlive(i);
        }
        i := i + 1;
      }
    }

    method CheckForTimeouts()
      requires Lawful(cipher) && Valid()
      modifies Repr()
      ensures Valid() && Model() == S.CheckTimeouts(old(Model()))
    {
      hide S.DisconnectInternal;
      if !running {
        return;
      }
      ghost var before := Model();
      var i := 0;
      while i < maxClients
        invariant i <= maxClients && Valid() && Model() == before
        invariant S.FindTimedOut(before, 0, before.maxClients) == S.FindTimedOut(before, i, before.maxClients)
      {
        if clients[i].connected && clients[i].timeout > 0 && !clients[i].loopback
           && clients[i].lastReceive + clients[i].timeout as real <= time {
          DisconnectClientInternal(i, false);
          return;
        }
        i := i + 1;
      }
    }

    method Update(time: real, datagrams: seq<S.Datagram>, now: uint64)
      requires Lawful(cipher) && Valid()
      modifies Repr()
      ensures Valid() && Model() == S.Update(cipher, old(Model()), time, datagrams, now)
    {
      hide S.ReceiveAll, S.SendPackets, S.CheckTimeouts;
      this.time := time;
      ReceivePackets(datagrams, now);
      SendPackets();
      CheckForTimeouts();
    }

    // ----- the application's calls -----

    method SendPacket(i: nat, data: bytes)
      requires Lawful(cipher) && Valid() && (running ==> i < maxClients) && |data| <= MAX_PAYLOAD_BYTES
      modifies this`trace, this`posts, this`fault, clients, encryptionManager.entries
      ensures Valid() && Model() == S.SendPayload(old(Model()), i, data)
    {
      hide S.SendClient;
      if !running || !clients[i].connected {
        return;
      }
      if !clients[i].loopback {
        if !clients[i].confirmed {
          SendKeepAlive(i);
        }
        SendClientPacket(Payload(data), i);
      } else {
        var x := clients[i];
        Note(Sent(i, NoAddress, Payload(data), x.sequence, ZERO_KEY, protocolId));
        PutSlot(i, x.(sequence := Inc64(x.sequence), lastSend := time));
      }
    }

    method ReceivePacket(i: nat) returns (item: Option<Q.Item>)
      requires Valid() && (running ==> i < maxClients)
      modifies this`memory, this`trace, clients
      ensures Valid() && (item, Model()) == S.ReceivePayload(old(Model()), i)
    {
      hide Q.Pop;
      if !running || !clients[i].connected {
        return None;
      }
      var (packet, rest) := Q.Pop(clients[i].queue);
      if packet.Some? {
        memory := Hand(memory, packet.value.id);
        Note(Handed(i, packet.value));
        PutSlot(i, clients[i].(queue := rest));
      }
      PutBack(old(Model()), i);
      return packet;
    }

    method FreePacket(id: nat)
      requires Valid() && id in memory.held
      modifies this`memory
      ensures Valid() && Model() == old(Model()).(memory := GiveBack(old(memory), id))
    {
      memory := GiveBack(memory, id);
    }

    method ConnectLoopbackClient(i: nat, id: uint64, userData: UserData)
      requires Valid() && i < maxClients && running && !clients[i].connected
      modifies this`numConnectedClients, this`fault, this`trace, clients
      ensures Valid() && Model() == S.ConnectLoopback(old(Model()), i, id, userData)
    {
      if numConnectedClients + 1 > maxClients {
        Fail();
      }
      CountClients(1);
      PutSlot(i, clients[i].(loopback := true, connected := true, confirmed := true, encryptionIndex := -1,
                             clientId := id, sequence := 0, address := NoAddress, lastSend := time,
                             lastReceive := time, userData := userData));
      Note(Accepted(i, NoAddress, id, Keys(ZERO_KEY, ZERO_KEY)));
    }

    method DisconnectLoopbackClient(i: nat)
      requires Valid() && i < maxClients && running && clients[i].connected && clients[i].loopback
      modifies this`numConnectedClients, this`fault, this`memory, this`trace, clients
      ensures Valid() && Model() == S.DisconnectLoopback(old(Model()), i)
    {
      hide I.Drain;
      DrainQueue(i);
      PutSlot(i, S.Vacated(clients[i]));
      Note(Released(i));
      CountDown();
    }

    method ProcessLoopbackPacket(i: nat, data: bytes, sequence: uint64)
      requires Valid() && i < maxClients && running && clients[i].connected && clients[i].loopback
      requires |data| <= MAX_PAYLOAD_BYTES
      modifies this`memory, this`trace, clients
      ensures Valid() && Model() == S.ProcessLoopback(old(Model()), i, data, sequence)
    {
      hide I.Enqueue;
      var id := Allocate();
      PutSlot(i, clients[i].(lastReceive := time));
      Enqueue(i, NoAddress, Q.Item(id, data, sequence));
    }
  }

  lemma PopsOne(q: Q.Ring)
    requires Q.Pop(q).0.Some?
    ensures Q.Pop(q).1.num < q.num
  {
  }

  lemma PutBack(s: S.ServerState, i: nat)
    requires i < |s.slots|
    ensures S.WithBox(s, i, S.Box(s, i)) == s
  {
    assert s.slots[i := s.slots[i].(queue := s.slots[i].queue)] == s.slots;
  }

  /** One call of the application or the update loop, and the payload it gave the application. */
  method Perform(server: NetcodeServer, e: S.Event) returns (taken: seq<Handing>)
    requires Lawful(server.cipher) && server.Valid() && S.Enabled(server.Model(), e)
    modifies server.Repr()
    ensures server.Valid() && server.Model() == S.Step(server.cipher, old(server.Model()), e)
    ensures taken == SR.TakenNow(old(server.Model()), e)
  {
    hide Lawful, S.Start, S.Stop, S.Update, S.SendPayload, S.ReceivePayload, S.DisconnectClient, S.DisconnectAll,
      S.ConnectLoopback, S.DisconnectLoopback, S.ProcessLoopback;
    taken := [];
    match e {
      case StartEvent(max, key) => server.Start(max, key);
      case StopEvent => server.Stop();
      case UpdateEvent(time, datagrams, now) => server.Update(time, datagrams, now);
      case SendEvent(i, data) => server.SendPacket(i, data);
      case ReceiveEvent(i) =>
        SR.ReturnsOldest(server.Model(), i);
        var item := server.ReceivePacket(i);
        taken := if item.Some? then [Handing(i, item.value)] else [];
      case FreeEvent(id) => server.FreePacket(id);
      case DisconnectEvent(i) => server.DisconnectClient(i);
      case DisconnectAllEvent => server.DisconnectAllClients();
      case ConnectLoopbackEvent(i, id, userData) => server.ConnectLoopbackClient(i, id, userData);
      case DisconnectLoopbackEvent(i) => server.DisconnectLoopbackClient(i);
      case LoopbackPacketEvent(i, data, sequence) => server.ProcessLoopbackPacket(i, data, sequence);
    }
  }

  /** A new server object driven through any orderly sequence of calls is, at the end, exactly the
      value that the run of the model gives; no run-time assert has failed; its socket was given, in
      order, the bytes of the packets the trace says were sent; and its receive calls gave the
      application, in order, the payloads the trace says were handed over. */
  method Drive(a: Aead, address: Address, protocolId: uint64, privateKey: Key, ignoreRequests: bool,
               ignoreResponses: bool, time: real, es: seq<S.Event>)
    returns (server: NetcodeServer, taken: seq<Handing>)
    requires Lawful(a)
    requires OrderlyRun(a, S.Create(address, protocolId, privateKey, ignoreRequests, ignoreResponses, time), es)
    ensures fresh(server.Repr()) && server.Valid() && !server.fault
    ensures server.Model()
         == Run(a, S.Create(address, protocolId, privateKey, ignoreRequests, ignoreResponses, time), es)
    ensures server.posts == Wires(a, server.trace) && taken == Handings(server.trace)
  {
    hide Lawful, S.Step, S.Enabled, Orderly, S.Create;
    server := new NetcodeServer(a, address, protocolId, privateKey, ignoreRequests, ignoreResponses, time);
    ghost var first := server.Model();
    taken := [];
    var i := 0;
    while i < |es|
      invariant i <= |es| && fresh(server.Repr()) && server.Valid() && server.cipher == a
      invariant OrderlyRun(a, first, es) && OrderlyRun(a, server.Model(), es[i..])
      invariant Run(a, first, es) == Run(a, server.Model(), es[i..])
      invariant SR.TakenOver(a, first, es) == taken + SR.TakenOver(a, server.Model(), es[i..])
    {
      assert es[i..][1..] == es[i + 1..];
      var now := Perform(server, es[i]);
      taken := taken + now;
      i := i + 1;
    }
    HandsOver(a, first, es);
    NeverFaults(a, address, protocolId, privateKey, ignoreRequests, ignoreResponses, time, es);
  }

  lemma HandsOver(a: Aead, s: S.ServerState, es: seq<S.Event>)
    requires Lawful(a) && ServerTheorems.New(s) && OrderlyRun(a, s, es)
    ensures Handings(Run(a, s, es).trace) == SR.TakenOver(a, s, es)
  {
    hide Lawful, Run, OrderlyRun;
    ServerTheorems.NewServer(s);
    ServerTheorems.NewTrace(s);
    SR.RunSays(a, s, es, 0);
  }

  lemma NeverFaults(a: Aead, address: Address, protocolId: uint64, privateKey: Key, ignoreRequests: bool,
                    ignoreResponses: bool, time: real, es: seq<S.Event>)
    requires OrderlyRun(a, S.Create(address, protocolId, privateKey, ignoreRequests, ignoreResponses, time), es)
    ensures !Run(a, S.Create(address, protocolId, privateKey, ignoreRequests, ignoreResponses, time), es).fault
  {
    hide OrderlyRun, Run;
    var s := S.Create(address, protocolId, privateKey, ignoreRequests, ignoreResponses, time);
    assert ServerTheorems.New(s);
    ServerTheorems.MappingsNeverFail(a, s, es, 0, 0);
  }
}
