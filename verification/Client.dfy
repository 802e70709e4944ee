/** The client endpoint as a value with one function for each source function. */
module Client {
  import opened Types
  import opened Crypto
  import opened Tokens
  import opened Packets
  import opened Replay
  import opened Queue
  import opened Traces
  import opened Memory
  import opened Inbox

  const CONNECT_TOKEN_EXPIRED := -6
  const INVALID_CONNECT_TOKEN := -5
  const CONNECTION_TIMED_OUT := -4
  const RESPONSE_TIMED_OUT := -3
  const REQUEST_TIMED_OUT := -2
  const CONNECTION_DENIED := -1
  const DISCONNECTED := 0
  const SENDING_REQUEST := 1
  const SENDING_RESPONSE := 2
  const CONNECTED := 3

  datatype Client = Client(
    state: int,
    time: real,
    connectStart: real,
    lastSend: real,
    lastReceive: real,
    shouldDisconnect: bool,
    shouldDisconnectState: int,
    sequence: uint64,
    clientIndex: int32,
    maxClients: int32,
    serverIndex: nat,
    serverAddress: Address,
    token: ConnectToken,
    writeKey: Key,
    readKey: Key,
    window: Window,
    queue: Ring,
    challengeSequence: uint64,
    challengeData: ChallengeData,
    loopback: bool,
    memory: Ledger,
    trace: Trace)

  function Create(time: real): Client {
    Client(DISCONNECTED, time, 0.0, -1000.0, -1000.0, false, DISCONNECTED, 0, 0, 0, 0, NoAddress, NO_CONNECT_TOKEN,
           ZERO_KEY, ZERO_KEY, Fresh(REPLAY_PROTECTION_BUFFER_SIZE), Empty(PACKET_QUEUE_SIZE), 0,
           ZERO_CHALLENGE_DATA, false, NEW_LEDGER, Nothing)
  }

  /** The packet types a client reads: all but requests and responses. */
  const ALLOWED: set<nat> := {DENIED, CHALLENGE, KEEP_ALIVE, PAYLOAD, DISCONNECT}

  predicate Live(c: Client) {
    c.state > DISCONNECTED && !c.loopback
  }

  function SetState(c: Client, state: int): Client {
    c.(state := state, trace := Then(c.trace, Changed(c.state, state)))
  }

  function ResetBeforeNextConnect(c: Client): Client {
    c.(connectStart := c.time,
       lastSend := c.time - 1.0,
       lastReceive := c.time,
       shouldDisconnect := false,
       shouldDisconnectState := DISCONNECTED,
       challengeSequence := 0,
       challengeData := ZERO_CHALLENGE_DATA,
       window := Fresh(|c.window.received|))
  }

  function Box(c: Client): Inbox {
    Inbox(c.queue, c.memory, c.trace)
  }

  function WithBox(c: Client, b: Inbox): Client {
    c.(queue := b.queue, memory := b.memory, trace := b.trace)
  }

  function ForgetConnection(c: Client): Client {
    c.(sequence := 0,
       loopback := false,
       clientIndex := 0,
       maxClients := 0,
       connectStart := 0.0,
       serverIndex := 0,
       serverAddress := NoAddress,
       token := NO_CONNECT_TOKEN,
       writeKey := ZERO_KEY,
       readKey := ZERO_KEY)
  }

  function ResetConnectionData(c: Client, state: int): Client {
    var reset := ResetBeforeNextConnect(SetState(ForgetConnection(c), state));
    WithBox(reset, Drain(Box(reset), 0))
  }

  function SendToServer(c: Client, p: Packet): Client {
    c.(sequence := Inc64(c.sequence),
       lastSend := c.time,
       trace := Then(c.trace, Sent(0, c.serverAddress, p, c.sequence, c.writeKey, c.token.protocolId)))
  }

  function SendDisconnects(c: Client, n: nat): Client
    decreases n
  {
    if n == 0 then c else SendDisconnects(SendToServer(c, Disconnect), n - 1)
  }

  function DisconnectInternal(c: Client, destination: int, sendPackets: bool): Client {
    if c.state <= DISCONNECTED || c.state == destination then c
    else
      ResetConnectionData(if sendPackets then SendDisconnects(c, NUM_DISCONNECT_PACKETS) else c, destination)
  }

  function ConnectWith(c: Client, tokenData: bytes): Client {
    var idle := DisconnectInternal(c, DISCONNECTED, true);
    match ReadConnect(tokenData)
    case None => SetState(idle, INVALID_CONNECT_TOKEN)
    case Some(t) =>
      var aimed := idle.(token := t, serverIndex := 0, serverAddress := t.servers[0],
                         readKey := t.serverToClientKey, writeKey := t.clientToServerKey);
      SetState(ResetBeforeNextConnect(aimed), SENDING_REQUEST)
  }

  // ----- receiving -----

  function ProcessDenied(c: Client, from: Address): Client {
    if (c.state == SENDING_REQUEST || c.state == SENDING_RESPONSE) && SameAddress(from, c.serverAddress) then
      c.(shouldDisconnect := true, shouldDisconnectState := CONNECTION_DENIED, lastReceive := c.time)
    else c
  }

  function ProcessChallenge(c: Client, from: Address, sequence: uint64, data: ChallengeData): Client {
    if c.state == SENDING_REQUEST && SameAddress(from, c.serverAddress) then
      SetState(c.(challengeSequence := sequence, challengeData := data, lastReceive := c.time), SENDING_RESPONSE)
    else c
  }

  function ProcessKeepAlive(c: Client, from: Address, index: int32, max: int32): Client {
    if SameAddress(from, c.serverAddress) && c.state == CONNECTED then c.(lastReceive := c.time)
    else if SameAddress(from, c.serverAddress) && c.state == SENDING_RESPONSE then
      SetState(c.(lastReceive := c.time, clientIndex := index, maxClients := max), CONNECTED)
    else c
  }

  function ProcessDisconnect(c: Client, from: Address): Client {
    if c.state == CONNECTED && SameAddress(from, c.serverAddress) then
      c.(shouldDisconnect := true, shouldDisconnectState := DISCONNECTED, lastReceive := c.time)
    else c
  }

  /** The cases that free their packet at the end. */
  function Handle(c: Client, from: Address, p: Packet): Client {
    match p
    case Denied => ProcessDenied(c, from)
    case Challenge(n, data) => ProcessChallenge(c, from, n, data)
    case KeepAlive(index, max) => ProcessKeepAlive(c, from, index, max)
    case Disconnect => ProcessDisconnect(c, from)
    case _ => c
  }

  /** netcode_client_process_packet; `id` is the packet's allocation. */
  function ProcessPacket(c: Client, from: Address, p: Packet, sequence: uint64, id: nat): Client {
    var seen := c.(trace := Then(c.trace, Processed(from, p, sequence, Some(c.readKey))));
    if p.Payload? && c.state == CONNECTED && SameAddress(from, c.serverAddress) then
      WithBox(seen, Enqueue(Box(seen), 0, from, Item(id, p.data, sequence))).(lastReceive := c.time)
    else
      var done := Handle(seen, from, p);
      done.(memory := Free(done.memory, id))
  }

  /** What one datagram does once the reader has judged it. */
  function Deliver(c: Client, from: Address, reading: Reading): Client {
    match reading
    case None => c
    case Some((p, sequence)) =>
      var (id, memory) := Alloc(c.memory);
      ProcessPacket(c.(memory := memory), from, p, sequence, id)
  }

  datatype Datagram = Datagram(from: Address, data: bytes)

  function Receive(a: Aead, c: Client, d: Datagram, now: uint64): Client {
    var (reading, window) :=
      ReadPacket(a, d.data, Some(c.readKey), c.token.protocolId, now, None, ALLOWED, Some(c.window));
    Deliver(c.(window := window.value), d.from, reading)
  }

  function ReceiveAll(a: Aead, c: Client, ds: seq<Datagram>, now: uint64): Client
    decreases |ds|
  {
    if ds == [] then c else ReceiveAll(a, Receive(a, c, ds[0], now), ds[1..], now)
  }

  // ----- sending and deadlines -----

  function RequestPacket(c: Client): Packet {
    Request(VERSION_INFO, c.token.protocolId, c.token.expireTimestamp, c.token.sequence, c.token.privateData)
  }

  function SendPackets(c: Client): Client {
    if c.lastSend + SEND_INTERVAL >= c.time then c
    else if c.state == SENDING_REQUEST then SendToServer(c, RequestPacket(c))
    else if c.state == SENDING_RESPONSE then SendToServer(c, Response(c.challengeSequence, c.challengeData))
    else if c.state == CONNECTED then SendToServer(c, KeepAlive(0, 0))
    else c
  }

  function ConnectToNextServer(c: Client): (bool, Client) {
    if c.serverIndex + 1 >= |c.token.servers| then (false, c)
    else
      var moved := c.(serverIndex := c.serverIndex + 1, serverAddress := c.token.servers[c.serverIndex + 1]);
      (true, SetState(ResetBeforeNextConnect(moved), SENDING_REQUEST))
  }

  /** Tries the next server, and settles in the given state when there is none. */
  function FailOver(c: Client, state: int): Client {
    var (moved, next) := ConnectToNextServer(c);
    if moved then next else DisconnectInternal(c, state, false)
  }

  /** The uint64 difference expire - create, in seconds. */
  function ExpireSeconds(t: ConnectToken): nat {
    (t.expireTimestamp - t.createTimestamp) % TWO64
  }

  predicate TimedOut(c: Client) {
    c.token.timeoutSeconds > 0 && c.lastReceive + c.token.timeoutSeconds as real < c.time
  }

  /** The part of netcode_client_update after the sends. */
  function CheckDeadlines(c: Client): Client {
    if DISCONNECTED < c.state < CONNECTED && c.connectStart + ExpireSeconds(c.token) as real <= c.time then
      DisconnectInternal(c, CONNECT_TOKEN_EXPIRED, false)
    else if c.shouldDisconnect then FailOver(c, c.shouldDisconnectState)
    else if c.state == SENDING_REQUEST && TimedOut(c) then FailOver(c, REQUEST_TIMED_OUT)
    else if c.state == SENDING_RESPONSE && TimedOut(c) then FailOver(c, RESPONSE_TIMED_OUT)
    else if c.state == CONNECTED && TimedOut(c) then DisconnectInternal(c, CONNECTION_TIMED_OUT, false)
    else c
  }

  function Update(a: Aead, c: Client, time: real, ds: seq<Datagram>, now: uint64): Client {
    var ticked := c.(time := time);
    if c.loopback then ticked else CheckDeadlines(SendPackets(ReceiveAll(a, ticked, ds, now)))
  }

  // ----- the application's calls -----

  function SendPayload(c: Client, data: bytes): Client {
    if c.state != CONNECTED then c
    else if !c.loopback then SendToServer(c, Payload(data))
    else
      c.(sequence := Inc64(c.sequence),
         trace := Then(c.trace, Sent(0, NoAddress, Payload(data), c.sequence, ZERO_KEY, c.token.protocolId)))
  }

  function ReceivePayload(c: Client): (Option<Item>, Client) {
    var (item, rest) := Dequeue(Box(c), 0);
    (item, WithBox(c, rest))
  }

  function ConnectLoopback(c: Client, index: int32, max: int32): Client {
    c.(state := CONNECTED, clientIndex := index, maxClients := max, loopback := true)
  }

  function ProcessLoopback(c: Client, data: bytes, sequence: uint64): Client {
    var (id, memory) := Alloc(c.memory);
    WithBox(c, Enqueue(Inbox(c.queue, memory, c.trace), 0, NoAddress, Item(id, data, sequence)))
  }

  datatype Event =
    | ConnectEvent(tokenData: bytes)
    | UpdateEvent(time: real, datagrams: seq<Datagram>, now: uint64)
    | SendEvent(data: bytes)
    | ReceiveEvent
    | FreeEvent(id: nat)
    | DisconnectEvent
    | ConnectLoopbackEvent(index: int32, max: int32)
    | DisconnectLoopbackEvent
    | LoopbackPacketEvent(data: bytes, sequence: uint64)

  /** What the entry points assert of their caller. */
  predicate Enabled(c: Client, e: Event) {
    match e
    case ConnectEvent(_) => !c.loopback
    case UpdateEvent(_, _, _) => true
    case SendEvent(data) => |data| <= MAX_PAYLOAD_BYTES
    case ReceiveEvent => true
    case FreeEvent(id) => id in c.memory.held
    case DisconnectEvent => !c.loopback
    case ConnectLoopbackEvent(_, _) => c.state <= DISCONNECTED
    case DisconnectLoopbackEvent => c.loopback
    case LoopbackPacketEvent(data, _) => c.loopback && |data| <= MAX_PAYLOAD_BYTES
  }

  function Step(a: Aead, c: Client, e: Event): Client {
    match e
    case ConnectEvent(tokenData) => ConnectWith(c, tokenData)
    case UpdateEvent(time, datagrams, now) => Update(a, c, time, datagrams, now)
    case SendEvent(data) => SendPayload(c, data)
    case ReceiveEvent => ReceivePayload(c).1
    case FreeEvent(id) => c.(memory := GiveBack(c.memory, id))
    case DisconnectEvent => DisconnectInternal(c, DISCONNECTED, true)
    case ConnectLoopbackEvent(index, max) => ConnectLoopback(c, index, max)
    case DisconnectLoopbackEvent => ResetConnectionData(c, DISCONNECTED)
    case LoopbackPacketEvent(data, sequence) => ProcessLoopback(c, data, sequence)
  }

  ghost predicate EnabledRun(a: Aead, c: Client, es: seq<Event>)
    decreases |es|
  {
    es == [] || (Enabled(c, es[0]) && EnabledRun(a, Step(a, c, es[0]), es[1..]))
  }

  function Run(a: Aead, c: Client, es: seq<Event>): Client
    decreases |es|
  {
    if es == [] then c else Run(a, Step(a, c, es[0]), es[1..])
  }
}
