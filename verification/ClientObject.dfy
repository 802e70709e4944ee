/** The client as the object the source keeps: fields updated in place, a replay window and a
    receive queue of its own, packets read through the buffer codec.  Every method is tied to the
    function of Client it implements, so what is proved of client runs holds of this object. */
module ClientObject {
  import opened Types
  import opened Crypto
  import opened Tokens
  import opened Packets
  import opened Traces
  import opened Memory
  import opened ReplayBuffer
  import opened PacketRing
  import opened Wire
  import opened Posting
  import opened TokenWire
  import Q = Queue
  import I = Inbox
  import C = Client
  import P = ClientPayloads

  class NetcodeClient {
    /** The cipher both ends use. */
    const cipher: Aead
    var state: int
    var time: real
    var connectStartTime: real
    var lastPacketSendTime: real
    var lastPacketReceiveTime: real
    var shouldDisconnect: bool
    var shouldDisconnectState: int
    var sequence: uint64
    var clientIndex: int32
    var maxClients: int32
    var serverAddressIndex: nat
    var serverAddress: Address
    var connectToken: ConnectToken
    var writePacketKey: Key
    var readPacketKey: Key
    var challengeTokenSequence: uint64
    var challengeTokenData: ChallengeData
    var loopback: bool
    const replayProtection: ReplayProtection
    const packetReceiveQueue: PacketQueue
    /** Where every allocated packet is, and what was done to the world outside. */
    var memory: Ledger
    var trace: Trace
    /** What the socket was given. */
    var posts: seq<Post>

    ghost function Repr(): set<object> {
      {this, replayProtection, replayProtection.receivedPacket, packetReceiveQueue, packetReceiveQueue.packets}
    }

    ghost predicate Valid()
      reads this, replayProtection, replayProtection.receivedPacket, packetReceiveQueue, packetReceiveQueue.packets
    {
      replayProtection.Valid() && packetReceiveQueue.Valid() && posts == Wires(cipher, trace)
    }

    ghost function Model(): C.Client
      requires Valid()
      reads this, replayProtection, replayProtection.receivedPacket, packetReceiveQueue, packetReceiveQueue.packets
    {
      C.Client(state, time, connectStartTime, lastPacketSendTime, lastPacketReceiveTime, shouldDisconnect,
               shouldDisconnectState, sequence, clientIndex, maxClients, serverAddressIndex, serverAddress,
               connectToken, writePacketKey, readPacketKey, replayProtection.Model(), packetReceiveQueue.Model(),
               challengeTokenSequence, challengeTokenData, loopback, memory, trace)
    }

    constructor (cipher: Aead, time: real)
      ensures Valid() && Model() == C.Create(time) && fresh(Repr()) && this.cipher == cipher
    {
      this.cipher := cipher;
      state := C.DISCONNECTED;
      this.time := time;
      connectStartTime := 0.0;
      lastPacketSendTime := -1000.0;
      lastPacketReceiveTime := -1000.0;
      shouldDisconnect := false;
      shouldDisconnectState := C.DISCONNECTED;
      sequence := 0;
      clientIndex := 0;
      maxClients := 0;
      serverAddressIndex := 0;
      serverAddress := NoAddress;
      connectToken := NO_CONNECT_TOKEN;
      writePacketKey := ZERO_KEY;
      readPacketKey := ZERO_KEY;
      challengeTokenSequence := 0;
      challengeTokenData := ZERO_CHALLENGE_DATA;
      loopback := false;
      replayProtection := new ReplayProtection(REPLAY_PROTECTION_BUFFER_SIZE);
      packetReceiveQueue := new PacketQueue(PACKET_QUEUE_SIZE);
      memory := NEW_LEDGER;
      trace := Nothing;
      posts := [];
    }

    // ----- fields that change together -----

    method Note(e: Effect)
      requires Valid() && !OverNetwork(e)
      modifies this`trace
      ensures Valid() && Model() == old(Model()).(trace := Then(old(trace), e))
    {
      trace := Then(trace, e);
    }

    method Allocate() returns (id: nat)
      requires Valid()
      modifies this`memory
      ensures Valid() && id == Alloc(old(memory)).0 && Model() == old(Model()).(memory := Alloc(old(memory)).1)
    {
      var (next, ledger) := Alloc(memory);
      memory := ledger;
      return next;
    }

    method FreeOne(id: nat)
      requires Valid()
      modifies this`memory
      ensures Valid() && Model() == old(Model()).(memory := Free(old(memory), id))
    {
      memory := Free(memory, id);
    }

    method SetState(clientState: int)
      requires Valid()
      modifies this`state, this`trace
      ensures Valid() && Model() == C.SetState(old(Model()), clientState)
    {
      trace := Then(trace, Changed(state, clientState));
      state := clientState;
    }

    method Heard()
      requires Valid()
      modifies this`lastPacketReceiveTime
      ensures Valid() && Model() == old(Model()).(lastReceive := old(time))
    {
      lastPacketReceiveTime := time;
    }

    method SetShouldDisconnect(yes: bool, destination: int)
      requires Valid()
      modifies this`shouldDisconnect, this`shouldDisconnectState
      ensures Valid()
      ensures Model() == old(Model()).(shouldDisconnect := yes, shouldDisconnectState := destination)
    {
      shouldDisconnect := yes;
      shouldDisconnectState := destination;
    }

    method SetChallenge(tokenSequence: uint64, data: ChallengeData)
      requires Valid()
      modifies this`challengeTokenSequence, this`challengeTokenData
      ensures Valid()
      ensures Model() == old(Model()).(challengeSequence := tokenSequence, challengeData := data)
    {
      challengeTokenSequence := tokenSequence;
      challengeTokenData := data;
    }

    method SetSlot(index: int32, max: int32)
      requires Valid()
      modifies this`clientIndex, this`maxClients
      ensures Valid() && Model() == old(Model()).(clientIndex := index, maxClients := max)
    {
      clientIndex := index;
      maxClients := max;
    }

    method SetKeys(write: Key, read: Key)
      requires Valid()
      modifies this`writePacketKey, this`readPacketKey
      ensures Valid() && Model() == old(Model()).(writeKey := write, readKey := read)
    {
      writePacketKey := write;
      readPacketKey := read;
    }

    method SetServer(index: nat, address: Address)
      requires Valid()
      modifies this`serverAddressIndex, this`serverAddress
      ensures Valid() && Model() == old(Model()).(serverIndex := index, serverAddress := address)
    {
      serverAddressIndex := index;
      serverAddress := address;
    }

    method SetToken(token: ConnectToken)
      requires Valid()
      modifies this`connectToken
      ensures Valid() && Model() == old(Model()).(token := token)
    {
      connectToken := token;
    }

    method RestartTimers()
      requires Valid()
      modifies this`connectStartTime, this`lastPacketSendTime, this`lastPacketReceiveTime
      ensures Valid()
      ensures Model() == old(Model()).(connectStart := old(time), lastSend := old(time) - 1.0, lastReceive := old(time))
    {
      connectStartTime := time;
      lastPacketSendTime := time - 1.0;
      lastPacketReceiveTime := time;
    }

    method ClearCounters()
      requires Valid()
      modifies this`sequence, this`loopback, this`connectStartTime
      ensures Valid() && Model() == old(Model()).(sequence := 0, loopback := false, connectStart := 0.0)
    {
      sequence := 0;
      loopback := false;
      connectStartTime := 0.0;
    }

    // ----- connecting and disconnecting -----

    method ResetBeforeNextConnect()
      requires Valid()
      modifies this, replayProtection, replayProtection.receivedPacket
      ensures Valid() && Model() == C.ResetBeforeNextConnect(old(Model()))
    {
      RestartTimers();
      SetShouldDisconnect(false, C.DISCONNECTED);
      SetChallenge(0, ZERO_CHALLENGE_DATA);
      replayProtection.Reset();
    }

    ghost function Box(): I.Inbox
      requires Valid()
      reads this, replayProtection, replayProtection.receivedPacket, packetReceiveQueue, packetReceiveQueue.packets
    {
      I.Inbox(packetReceiveQueue.Model(), memory, trace)
    }

    /** Pops and frees until the queue is empty, then clears it. */
    method DrainQueue()
      requires Valid()
      modifies this`memory, this`trace, packetReceiveQueue, packetReceiveQueue.packets
      ensures Valid() && Model() == C.WithBox(old(Model()), I.Drain(old(Box()), 0))
    {
      ghost var before := Box();
      while true
        invariant Valid()
        invariant I.PopAll(Box(), 0) == I.PopAll(before, 0)
        invariant Model() == C.WithBox(old(Model()), Box())
        decreases packetReceiveQueue.numPackets
      {
        var packet := packetReceiveQueue.Pop();
        if packet.None? {
          break;
        }
        FreeOne(packet.value.id);
        Note(Discarded(0, packet.value));
      }
      var freed := packetReceiveQueue.Clear();
      memory := I.FreeAll(memory, freed);
    }

    method ResetConnectionData(clientState: int)
      requires Valid()
      modifies Repr()
      ensures Valid() && Model() == C.ResetConnectionData(old(Model()), clientState)
    {
      ClearCounters();
      SetSlot(0, 0);
      SetServer(0, NoAddress);
      SetToken(NO_CONNECT_TOKEN);
      SetKeys(ZERO_KEY, ZERO_KEY);
      SetState(clientState);
      ResetBeforeNextConnect();
      DrainQueue();
    }

    /** Writes the packet, hands its bytes to the socket and notes what was sent. */
    method SendPacketToServer(packet: Packet)
      requires Lawful(cipher) && Valid() && (packet.Payload? ==> |packet.data| <= MAX_PAYLOAD_BYTES)
      modifies this`sequence, this`lastPacketSendTime, this`trace, this`posts
      ensures Valid() && Model() == C.SendToServer(old(Model()), packet)
      ensures serverAddress != NoAddress ==>
                posts == old(posts) + [Post(serverAddress, WritePacket(cipher, packet, old(sequence), writePacketKey,
                                                                       connectToken.protocolId))]
    {
      hide Lawful;
      var packetData := WriteOut(cipher, packet, sequence, writePacketKey, connectToken.protocolId);
      PostPacket(packet, packetData);
      CountSend();
    }

    method CountSend()
      requires Valid()
      modifies this`sequence, this`lastPacketSendTime
      ensures Valid()
      ensures Model() == old(Model()).(sequence := Inc64(old(sequence)), lastSend := old(time))
    {
      sequence := Inc64(sequence);
      lastPacketSendTime := time;
    }

    /** The socket takes no packet for an address of type NONE. */
    method PostPacket(packet: Packet, packetData: bytes)
      requires Valid() && packetData == WritePacket(cipher, packet, sequence, writePacketKey, connectToken.protocolId)
      modifies this`trace, this`posts
      ensures Valid()
      ensures Model() == old(Model()).(trace := Then(old(trace), Sent(0, serverAddress, packet, sequence, writePacketKey,
                                                                      connectToken.protocolId)))
      ensures serverAddress != NoAddress ==> posts == old(posts) + [Post(serverAddress, packetData)]
    {
      hide WritePacket;
      if serverAddress != NoAddress {
        posts := posts + [Post(serverAddress, packetData)];
      }
      trace := Then(trace, Sent(0, serverAddress, packet, sequence, writePacketKey, connectToken.protocolId));
    }

    method DisconnectInternal(destinationState: int, sendDisconnectPackets: bool)
      requires Lawful(cipher) && Valid()
      modifies Repr()
      ensures Valid() && Model() == C.DisconnectInternal(old(Model()), destinationState, sendDisconnectPackets)
    {
      if state <= C.DISCONNECTED || state == destinationState {
        return;
      }
      ghost var before := Model();
      if sendDisconnectPackets {
        var i := 0;
        while i < NUM_DISCONNECT_PACKETS
          invariant i <= NUM_DISCONNECT_PACKETS && Valid()
          invariant C.SendDisconnects(before, NUM_DISCONNECT_PACKETS)
                 == C.SendDisconnects(Model(), NUM_DISCONNECT_PACKETS - i)
        {
          SendPacketToServer(Disconnect);
          i := i + 1;
        }
      }
      ResetConnectionData(destinationState);
    }

    method DisconnectFromServer()
      requires Lawful(cipher) && Valid()
      modifies Repr()
      ensures Valid() && Model() == C.DisconnectInternal(old(Model()), C.DISCONNECTED, true)
    {
      DisconnectInternal(C.DISCONNECTED, true);
    }

    method Connect(tokenData: bytes)
      requires Lawful(cipher) && Valid()
      modifies Repr()
      ensures Valid() && Model() == C.ConnectWith(old(Model()), tokenData)
    {
      hide Lawful, C.DisconnectInternal, ReadConnect;
      DisconnectInternal(C.DISCONNECTED, true);
      var buffer := new byte[|tokenData|](i requires 0 <= i < |tokenData| => tokenData[i]);
      assert buffer[..] == tokenData;
      var token := ReadConnectFrom(buffer);
      if token.None? {
        SetState(C.INVALID_CONNECT_TOKEN);
        return;
      }
      SetToken(token.value);
      SetServer(0, connectToken.servers[0]);
      SetKeys(connectToken.clientToServerKey, connectToken.serverToClientKey);
      ResetBeforeNextConnect();
      SetState(C.SENDING_REQUEST);
    }

    // ----- receiving -----

    /** netcode_packet_queue_push: a full queue frees the packet. */
    method Enqueue(from: Address, item: Q.Item)
      requires Valid()
      modifies this`memory, this`trace, packetReceiveQueue, packetReceiveQueue.packets
      ensures Valid() && Model() == C.WithBox(old(Model()), I.Enqueue(old(Box()), 0, from, item))
    {
      var queued := packetReceiveQueue.Push(item);
      if queued {
        Note(Queued(0, from, item));
      } else {
        FreeOne(item.id);
        Note(Dropped(0, item));
      }
    }

    method ProcessDenied(from: Address)
      requires Valid()
      modifies this
      ensures Valid() && Model() == C.ProcessDenied(old(Model()), from)
    {
      if (state == C.SENDING_REQUEST || state == C.SENDING_RESPONSE) && SameAddress(from, serverAddress) {
        SetShouldDisconnect(true, C.CONNECTION_DENIED);
        Heard();
      }
    }

    method ProcessChallenge(from: Address, tokenSequence: uint64, data: ChallengeData)
      requires Valid()
      modifies this
      ensures Valid() && Model() == C.ProcessChallenge(old(Model()), from, tokenSequence, data)
    {
      if state == C.SENDING_REQUEST && SameAddress(from, serverAddress) {
        SetChallenge(tokenSequence, data);
        Heard();
        SetState(C.SENDING_RESPONSE);
      }
    }

    method ProcessKeepAlive(from: Address, index: int32, max: int32)
      requires Valid()
      modifies this
      ensures Valid() && Model() == C.ProcessKeepAlive(old(Model()), from, index, max)
    {
      if SameAddress(from, serverAddress) {
        if state == C.CONNECTED {
          Heard();
        } else if state == C.SENDING_RESPONSE {
          Heard();
          SetSlot(index, max);
          SetState(C.CONNECTED);
        }
      }
    }

    method ProcessDisconnect(from: Address)
      requires Valid()
      modifies this
      ensures Valid() && Model() == C.ProcessDisconnect(old(Model()), from)
    {
      if state == C.CONNECTED && SameAddress(from, serverAddress) {
        SetShouldDisconnect(true, C.DISCONNECTED);
        Heard();
      }
    }

    /** The cases that free their packet at the end. */
    method Handle(from: Address, packet: Packet)
      requires Valid()
      modifies this
      ensures Valid() && Model() == C.Handle(old(Model()), from, packet)
    {
      match packet {
        case Denied => ProcessDenied(from);
        case Challenge(n, data) => ProcessChallenge(from, n, data);
        case KeepAlive(index, max) => ProcessKeepAlive(from, index, max);
        case Disconnect => ProcessDisconnect(from);
        case _ =>
      }
    }

    method ProcessPacket(from: Address, packet: Packet, packetSequence: uint64, id: nat)
      requires Valid()
      modifies Repr()
      ensures Valid() && Model() == C.ProcessPacket(old(Model()), from, packet, packetSequence, id)
    {
      hide C.Handle, I.Enqueue;
      Note(Processed(from, packet, packetSequence, Some(readPacketKey)));
      if packet.Payload? && state == C.CONNECTED && SameAddress(from, serverAddress) {
        Enqueue(from, Q.Item(id, packet.data, packetSequence));
        Heard();
        return;
      }
      Handle(from, packet);
      FreeOne(id);
    }

    /** One turn of the receive loop. */
    method ReceiveOne(d: C.Datagram, now: uint64)
      requires Lawful(cipher) && Valid()
      modifies Repr()
      ensures Valid() && Model() == C.Receive(cipher, old(Model()), d, now)
    {
      hide Lawful, ReadPacket, C.ProcessPacket;
      var packetData := new byte[|d.data|](i requires 0 <= i < |d.data| => d.data[i]);
      assert packetData[..packetData.Length] == d.data;
      var reading := ReadPacketFrom(cipher, packetData, packetData.Length, Some(readPacketKey), connectToken.protocolId, now,
                                    None, C.ALLOWED, replayProtection);
      if reading.Some? {
        var id := Allocate();
        ProcessPacket(d.from, reading.value.0, reading.value.1, id);
      }
    }

    method ReceivePackets(datagrams: seq<C.Datagram>, now: uint64)
      requires Lawful(cipher) && Valid()
      modifies Repr()
      ensures Valid() && Model() == C.ReceiveAll(cipher, old(Model()), datagrams, now)
    {
      hide Lawful, C.Receive;
      ghost var before := Model();
      var i := 0;
      while i < |datagrams|
        invariant i <= |datagrams| && Valid()
        invariant C.ReceiveAll(cipher, before, datagrams, now) == C.ReceiveAll(cipher, Model(), datagrams[i..], now)
      {
        assert datagrams[i..][1..] == datagrams[i + 1..];
        ReceiveOne(datagrams[i], now);
        i := i + 1;
      }
    }

    // ----- sending and deadlines -----

    method SendPackets()
      requires Lawful(cipher) && Valid()
      modifies this`sequence, this`lastPacketSendTime, this`trace, this`posts
      ensures Valid() && Model() == C.SendPackets(old(Model()))
    {
      if state == C.SENDING_REQUEST {
        if lastPacketSendTime + SEND_INTERVAL >= time {
          return;
        }
        SendPacketToServer(Request(VERSION_INFO, connectToken.protocolId, connectToken.expireTimestamp,
                                   connectToken.sequence, connectToken.privateData));
      } else if state == C.SENDING_RESPONSE {
        if lastPacketSendTime + SEND_INTERVAL >= time {
          return;
        }
        SendPacketToServer(Response(challengeTokenSequence, challengeTokenData));
      } else if state == C.CONNECTED {
        if lastPacketSendTime + SEND_INTERVAL >= time {
          return;
        }
        SendPacketToServer(KeepAlive(0, 0));
      }
    }

    method ConnectToNextServer() returns (moved: bool)
      requires Valid()
      modifies Repr()
      ensures Valid() && (moved, Model()) == C.ConnectToNextServer(old(Model()))
      ensures !moved ==> unchanged(Repr())
    {
      if serverAddressIndex + 1 >= |connectToken.servers| {
        return false;
      }
      SetServer(serverAddressIndex + 1, connectToken.servers[serverAddressIndex + 1]);
      ResetBeforeNextConnect();
      SetState(C.SENDING_REQUEST);
      return true;
    }

    method FailOver(clientState: int)
      requires Lawful(cipher) && Valid()
      modifies Repr()
      ensures Valid() && Model() == C.FailOver(old(Model()), clientState)
    {
      hide C.DisconnectInternal;
      var moved := ConnectToNextServer();
      if moved {
        return;
      }
      DisconnectInternal(clientState, false);
    }

    method CheckDeadlines()
      requires Lawful(cipher) && Valid()
      modifies Repr()
      ensures Valid() && Model() == C.CheckDeadlines(old(Model()))
    {
      hide C.DisconnectInternal, C.FailOver;
      if C.DISCONNECTED < state < C.CONNECTED {
        var expireSeconds := (connectToken.expireTimestamp - connectToken.createTimestamp) % TWO64;
        if connectStartTime + expireSeconds as real <= time {
          DisconnectInternal(C.CONNECT_TOKEN_EXPIRED, false);
          return;
        }
      }
      if shouldDisconnect {
        FailOver(shouldDisconnectState);
        return;
      }
      var timedOut := connectToken.timeoutSeconds > 0
                      && lastPacketReceiveTime + connectToken.timeoutSeconds as real < time;
      if state == C.SENDING_REQUEST && timedOut {
        FailOver(C.REQUEST_TIMED_OUT);
      } else if state == C.SENDING_RESPONSE && timedOut {
        FailOver(C.RESPONSE_TIMED_OUT);
      } else if state == C.CONNECTED && timedOut {
        DisconnectInternal(C.CONNECTION_TIMED_OUT, false);
      }
    }

    method Update(time: real, datagrams: seq<C.Datagram>, now: uint64)
      requires Lawful(cipher) && Valid()
      modifies Repr()
      ensures Valid() && Model() == C.Update(cipher, old(Model()), time, datagrams, now)
    {
      hide Lawful, C.ReceiveAll, C.SendPackets, C.CheckDeadlines;
      this.time := time;
      if loopback {
        return;
      }
      ReceivePackets(datagrams, now);
      SendPackets();
      CheckDeadlines();
    }

    // ----- the application's calls -----

    method SendPacket(data: bytes)
      requires Lawful(cipher) && Valid() && |data| <= MAX_PAYLOAD_BYTES
      modifies this`sequence, this`lastPacketSendTime, this`trace, this`posts
      ensures Valid() && Model() == C.SendPayload(old(Model()), data)
    {
      if state != C.CONNECTED {
        return;
      }
      if !loopback {
        SendPacketToServer(Payload(data));
      } else {
        Note(Sent(0, NoAddress, Payload(data), sequence, ZERO_KEY, connectToken.protocolId));
        sequence := Inc64(sequence);
      }
    }

    method ReceivePacket() returns (item: Option<Q.Item>)
      requires Valid()
      modifies this`memory, this`trace, packetReceiveQueue
      ensures Valid() && (item, Model()) == C.ReceivePayload(old(Model()))
    {
      item := packetReceiveQueue.Pop();
      if item.Some? {
        memory := Hand(memory, item.value.id);
        Note(Handed(0, item.value));
      }
    }

    method FreePacket(id: nat)
      requires Valid() && id in memory.held
      modifies this`memory
      ensures Valid() && Model() == old(Model()).(memory := GiveBack(old(memory), id))
    {
      memory := GiveBack(memory, id);
    }

    method ConnectLoopback(index: int32, max: int32)
      requires Valid() && state <= C.DISCONNECTED
      modifies this
      ensures Valid() && Model() == C.ConnectLoopback(old(Model()), index, max)
    {
      SetSlot(index, max);
      state := C.CONNECTED;
      loopback := true;
    }

    method DisconnectLoopback()
      requires Valid() && loopback
      modifies Repr()
      ensures Valid() && Model() == C.ResetConnectionData(old(Model()), C.DISCONNECTED)
    {
      ResetConnectionData(C.DISCONNECTED);
    }

    method ProcessLoopbackPacket(data: bytes, packetSequence: uint64)
      requires Valid() && loopback && |data| <= MAX_PAYLOAD_BYTES
      modifies Repr()
      ensures Valid() && Model() == C.ProcessLoopback(old(Model()), data, packetSequence)
    {
      var id := Allocate();
      Enqueue(NoAddress, Q.Item(id, data, packetSequence));
    }
  }

  /** One call of the application or the update loop, and the payload it gave the application. */
  method Perform(client: NetcodeClient, e: C.Event) returns (taken: seq<Handing>)
    requires Lawful(client.cipher) && client.Valid() && C.Enabled(client.Model(), e)
    modifies client.Repr()
    ensures client.Valid() && client.Model() == C.Step(client.cipher, old(client.Model()), e)
    ensures taken == P.TakenNow(old(client.Model()), e)
  {
    hide Lawful, C.ConnectWith, C.Update, C.SendPayload, C.ReceivePayload, C.DisconnectInternal, C.ConnectLoopback,
      C.ResetConnectionData, C.ProcessLoopback;
    taken := [];
    match e {
      case ConnectEvent(tokenData) => client.Connect(tokenData);
      case UpdateEvent(time, datagrams, now) => client.Update(time, datagrams, now);
      case SendEvent(data) => client.SendPacket(data);
      case ReceiveEvent =>
        P.TakeSays(client.Model());
        var item := client.ReceivePacket();
        taken := if item.Some? then [Handing(0, item.value)] else [];
      case FreeEvent(id) => client.FreePacket(id);
      case DisconnectEvent => client.DisconnectFromServer();
      case ConnectLoopbackEvent(index, max) => client.ConnectLoopback(index, max);
      case DisconnectLoopbackEvent => client.DisconnectLoopback();
      case LoopbackPacketEvent(data, sequence) => client.ProcessLoopbackPacket(data, sequence);
    }
  }

  /** A new client object driven through any sequence of calls its asserts allow is, at the end,
      exactly the value that the run of the model gives; its socket was given, in order, the bytes of
      the packets the trace says were sent; and its receive calls gave the application, in order, the
      payloads the trace says were handed over. */
  method Drive(a: Aead, time: real, es: seq<C.Event>) returns (client: NetcodeClient, taken: seq<Handing>)
    requires Lawful(a) && C.EnabledRun(a, C.Create(time), es)
    ensures fresh(client.Repr()) && client.Valid() && client.Model() == C.Run(a, C.Create(time), es)
    ensures client.posts == Wires(a, C.Run(a, C.Create(time), es).trace)
    ensures taken == Handings(C.Run(a, C.Create(time), es).trace)
  {
    hide Lawful, C.Step, C.Enabled;
    client := new NetcodeClient(a, time);
    taken := [];
    P.RunSays(a, C.Create(time), es);
    var i := 0;
    while i < |es|
      invariant i <= |es| && fresh(client.Repr()) && client.Valid() && client.cipher == a
      invariant C.EnabledRun(a, client.Model(), es[i..])
      invariant C.Run(a, C.Create(time), es) == C.Run(a, client.Model(), es[i..])
      invariant P.TakenOver(a, C.Create(time), es) == taken + P.TakenOver(a, client.Model(), es[i..])
    {
      assert es[i..][1..] == es[i + 1..];
      var now := Perform(client, es[i]);
      taken := taken + now;
      i := i + 1;
    }
  }
}
