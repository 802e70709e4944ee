/** The server endpoint as a value with one function for each source function.

    Each run-time assert of the source on slots, counts and table indices, and the "encryption mapping is
    out of date" error, is modelled by setting `fault`. */
module Server {
  import opened Types
  import opened Crypto
  import opened Tokens
  import opened Packets
  import opened Replay
  import opened Queue
  import opened Traces
  import opened Memory
  import opened Inbox
  import M = Mappings
  import H = TokenHistory

  /** One client slot across the server's parallel arrays. */
  datatype Slot = Slot(
    connected: bool,
    loopback: bool,
    confirmed: bool,
    timeout: int32,
    encryptionIndex: int,
    clientId: uint64,
    sequence: uint64,
    lastSend: real,
    lastReceive: real,
    userData: UserData,
    address: Address,
    window: Window,
    queue: Ring)

  datatype Server = Server(
    address: Address,
    protocolId: uint64,
    privateKey: Key,
    ignoreRequests: bool,
    ignoreResponses: bool,
    time: real,
    running: bool,
    maxClients: nat,
    numConnected: int,
    globalSequence: uint64,
    challengeSequence: uint64,
    challengeKey: Key,
    slots: seq<Slot>,
    history: seq<H.Entry>,
    mappings: M.Manager,
    memory: Ledger,
    trace: Trace,
    fault: bool)

  /** What the embedded structs and arrays of every server satisfy by their types. */
  predicate Shaped(s: Server) {
    |s.history| > 0 && s.mappings.num <= |s.mappings.entries| && s.maxClients <= |s.slots|
  }

  type ServerState = s: Server | Shaped(s) witness Blank()

  function Blank(): Server {
    Server(NoAddress, 0, ZERO_KEY, false, false, 0.0, false, 0, 0, 0, 0, ZERO_KEY, [], H.Reset(1), M.Reset(0),
           NEW_LEDGER, Nothing, false)
  }

  function FreeSlot(): Slot {
    Slot(false, false, false, 0, -1, 0, 0, 0.0, 0.0, ZERO_USER_DATA, NoAddress,
         Fresh(REPLAY_PROTECTION_BUFFER_SIZE), Empty(PACKET_QUEUE_SIZE))
  }

  function Create(address: Address, protocolId: uint64, privateKey: Key, ignoreRequests: bool, ignoreResponses: bool,
                  time: real): (s: ServerState) {
    Server(address, protocolId, privateKey, ignoreRequests, ignoreResponses, time, false, 0, 0, TWO63, 0, ZERO_KEY,
           seq(MAX_CLIENTS, _ => FreeSlot()), H.Reset(MAX_CONNECT_TOKEN_ENTRIES), M.Reset(MAX_ENCRYPTION_MAPPINGS),
           NEW_LEDGER, Nothing, false)
  }

  /** The packet types a server reads: all but denied and challenge packets. */
  const ALLOWED: set<nat> := {REQUEST, RESPONSE, KEEP_ALIVE, PAYLOAD, DISCONNECT}

  predicate Remote(x: Slot) {
    x.connected && !x.loopback
  }

  function TenantOf(x: Slot): Option<Tenant> {
    if x.connected then Some(Tenant(x.address, x.clientId)) else None
  }

  function PutSlot(s: ServerState, i: nat, x: Slot): ServerState
    requires i < |s.slots|
  {
    s.(slots := s.slots[i := x])
  }

  function Box(s: ServerState, i: nat): Inbox
    requires i < |s.slots|
  {
    Inbox(s.slots[i].queue, s.memory, s.trace)
  }

  function WithBox(s: ServerState, i: nat, b: Inbox): ServerState
    requires i < |s.slots|
  {
    s.(slots := s.slots[i := s.slots[i].(queue := b.queue)], memory := b.memory, trace := b.trace)
  }

  // ----- lookups -----

  /** The first slot below n, from i on, connected with this id, or n. */
  function FindById(slots: seq<Slot>, i: nat, n: nat, id: uint64): (k: nat)
    requires i <= n <= |slots|
    ensures i <= k <= n
    ensures k < n ==> slots[k].connected && slots[k].clientId == id
    ensures forall j :: i <= j < k ==> !(slots[j].connected && slots[j].clientId == id)
    decreases n - i
  {
    if i == n then n
    else if slots[i].connected && slots[i].clientId == id then i
    else FindById(slots, i + 1, n, id)
  }

  function FindByAddress(slots: seq<Slot>, i: nat, n: nat, a: Address): (k: nat)
    requires i <= n <= |slots|
    ensures i <= k <= n
    ensures k < n ==> slots[k].connected && slots[k].address == a && a != NoAddress
    ensures forall j :: i <= j < k ==> !(slots[j].connected && SameAddress(slots[j].address, a))
    decreases n - i
  {
    if i == n then n
    else if slots[i].connected && SameAddress(slots[i].address, a) then i
    else FindByAddress(slots, i + 1, n, a)
  }

  function FindFree(slots: seq<Slot>, i: nat, n: nat): (k: nat)
    requires i <= n <= |slots|
    ensures i <= k <= n
    ensures k < n ==> !slots[k].connected
    ensures forall j :: i <= j < k ==> slots[j].connected
    decreases n - i
  {
    if i == n then n
    else if !slots[i].connected then i
    else FindFree(slots, i + 1, n)
  }

  /** A C int made from a count. */
  function AsInt32(x: nat): int32 {
    ToInt32(x % TWO32)
  }

  // ----- sending -----

  function SendGlobal(s: ServerState, to: Address, p: Packet, key: Key): ServerState {
    s.(trace := Then(s.trace, Sent(GLOBAL, to, p, s.globalSequence, key, s.protocolId)),
       globalSequence := Inc64(s.globalSequence))
  }

  function SendClient(s: ServerState, i: nat, p: Packet): (r: ServerState)
    requires i < |s.slots|
    ensures |r.slots| == |s.slots| && r.maxClients == s.maxClients
  {
    var x := s.slots[i];
    if i >= s.maxClients || !Remote(x) || !(0 <= x.encryptionIndex < s.mappings.num) then s.(fault := true)
    else
      var (ok, mappings) := M.Touch(s.mappings, x.encryptionIndex, x.address, s.time);
      if !ok then s.(fault := true)
      else
        s.(mappings := mappings,
           slots := s.slots[i := x.(sequence := Inc64(x.sequence), lastSend := s.time)],
           trace := Then(s.trace, Sent(i, x.address, p, x.sequence, mappings.entries[x.encryptionIndex].sendKey,
                                       s.protocolId)))
  }

  function KeepAlivePacket(s: Server, i: nat): Packet {
    KeepAlive(AsInt32(i), AsInt32(s.maxClients))
  }

  // ----- disconnecting -----

  function SendDisconnects(s: ServerState, i: nat, n: nat): (r: ServerState)
    requires i < |s.slots|
    ensures |r.slots| == |s.slots| && r.maxClients == s.maxClients
    decreases n
  {
    if n == 0 then s else SendDisconnects(SendClient(s, i, Disconnect), i, n - 1)
  }

  /** A slot given up. Its timeout is the one field the source leaves behind. */
  function Vacated(x: Slot): Slot {
    Slot(false, false, false, x.timeout, -1, 0, 0, 0.0, 0.0, ZERO_USER_DATA, NoAddress, x.window, x.queue)
  }

  /** Drops everything slot i holds and forgets its mapping. */
  function Release(s: ServerState, i: nat): (r: ServerState)
    requires i < |s.slots|
    ensures |r.slots| == |s.slots| && r.maxClients == s.maxClients
  {
    var x := s.slots[i];
    var b := Drain(Box(s, i), i);
    s.(mappings := M.Remove(s.mappings, x.address, s.time).1,
       memory := b.memory,
       trace := Then(b.trace, Released(i)),
       slots := s.slots[i := Vacated(x).(window := Fresh(|x.window.received|), queue := b.queue)],
       numConnected := s.numConnected - 1,
       fault := s.fault || s.numConnected < 1)
  }

  function DisconnectInternal(s: ServerState, i: nat, sendPackets: bool): (r: ServerState)
    requires i < |s.slots|
    ensures |r.slots| == |s.slots| && r.maxClients == s.maxClients
  {
    if !s.running || i >= s.maxClients || !Remote(s.slots[i]) then s.(fault := true)
    else Release(if sendPackets then SendDisconnects(s, i, NUM_DISCONNECT_PACKETS) else s, i)
  }

  function DisconnectClient(s: ServerState, i: nat): ServerState
    requires s.running ==> i < |s.slots|
  {
    if !s.running || !Remote(s.slots[i]) then s else DisconnectInternal(s, i, true)
  }

  function DisconnectFrom(s: ServerState, i: nat): (r: ServerState)
    requires i <= s.maxClients
    ensures |r.slots| == |s.slots| && r.maxClients == s.maxClients
    decreases s.maxClients - i
  {
    if i == s.maxClients then s
    else DisconnectFrom(if Remote(s.slots[i]) then DisconnectInternal(s, i, true) else s, i + 1)
  }

  function DisconnectAll(s: ServerState): (r: ServerState)
    ensures |r.slots| == |s.slots| && r.maxClients == s.maxClients
  {
    if !s.running then s else DisconnectFrom(s, 0)
  }

  // ----- starting and stopping -----

  function Stop(s: ServerState): (r: ServerState)
    ensures |r.slots| == |s.slots|
  {
    if !s.running then s
    else
      var d := DisconnectAll(s);
      d.(running := false,
         maxClients := 0,
         numConnected := 0,
         globalSequence := 0,
         challengeSequence := 0,
         challengeKey := ZERO_KEY,
         history := H.Reset(|d.history|),
         mappings := M.Reset(|d.mappings.entries|),
         trace := Then(d.trace, Stopped))
  }

  function InitQueues(slots: seq<Slot>, n: nat): (r: seq<Slot>)
    requires n <= |slots|
    ensures |r| == |slots|
    ensures forall i :: 0 <= i < |slots| ==>
              r[i] == if i < n then slots[i].(queue := Empty(|slots[i].queue.slots|)) else slots[i]
  {
    if n == 0 then slots
    else
      var r := InitQueues(slots, n - 1);
      r[n - 1 := r[n - 1].(queue := Empty(|r[n - 1].queue.slots|))]
  }

  function Start(s: ServerState, max: nat, challengeKey: Key): ServerState
    requires max <= |s.slots|
  {
    var idle := Stop(s);
    idle.(running := true,
          maxClients := max,
          numConnected := 0,
          challengeSequence := 0,
          challengeKey := challengeKey,
          slots := InitQueues(idle.slots, max),
          trace := Then(idle.trace, Started))
  }

  // ----- connection requests -----

  predicate Whitelisted(server: Address, addresses: seq<Address>) {
    exists i :: 0 <= i < |addresses| && SameAddress(server, addresses[i])
  }

  function RequestMac(data: PrivateData): Mac {
    data[CONNECT_TOKEN_PRIVATE_BYTES - MAC_BYTES..]
  }

  /** The checks before the token history is asked. */
  predicate RequestAcceptable(s: ServerState, from: Address, t: PrivateToken) {
    && Whitelisted(s.address, t.servers)
    && FindByAddress(s.slots, 0, s.maxClients, from) == s.maxClients
    && FindById(s.slots, 0, s.maxClients, t.clientId) == s.maxClients
  }

  function RequestMapping(s: ServerState, from: Address, t: PrivateToken): M.Mapping {
    M.NewMapping(from, t.serverToClientKey, t.clientToServerKey, s.time, s.time + t.timeoutSeconds as real,
                 t.timeoutSeconds)
  }

  /** Seals a challenge for the token's owner and sends it. */
  function SendChallenge(a: Aead, s: ServerState, from: Address, t: PrivateToken): ServerState {
    var sealed := SealChallenge(a, ChallengeToken(t.clientId, t.userData), s.challengeSequence, s.challengeKey);
    if |sealed| != CHALLENGE_TOKEN_BYTES then s
    else
      var granted := s.(challengeSequence := Inc64(s.challengeSequence),
                        trace := Then(s.trace, Granted(from, t.clientId, t.userData, s.challengeSequence,
                                                       t.serverToClientKey)));
      SendGlobal(granted, from, Challenge(s.challengeSequence, sealed), t.serverToClientKey)
  }

  /** Asks the token history about a token, which remembers it. */
  function AskHistory(s: ServerState, from: Address, mac: Mac): (r: (bool, ServerState))
    ensures |r.1.slots| == |s.slots|
  {
    var (allowed, history) := H.FindOrAdd(s.history, from, mac, s.time);
    (allowed, s.(history := history, trace := Then(s.trace, Shown(from, mac, s.time))))
  }

  function ProcessRequest(a: Aead, s: ServerState, from: Address, data: PrivateData): ServerState {
    match ReadPrivate(data)
    case None => s
    case Some(t) =>
      if !RequestAcceptable(s, from, t) then s
      else
        var (allowed, noted) := AskHistory(s, from, RequestMac(data));
        if !allowed then noted
        else if s.numConnected == s.maxClients then SendGlobal(noted, from, Denied, t.serverToClientKey)
        else
          var (added, mappings) := M.Add(s.mappings, RequestMapping(s, from, t), s.time);
          if !added then noted else SendChallenge(a, noted.(mappings := mappings), from, t)
  }

  // ----- connection responses -----

  /** A slot as a client takes it. Confirmation, window and queue are those of the free slot. */
  function Taken(s: Server, x: Slot, from: Address, id: uint64, encryptionIndex: int, timeout: int32,
                 userData: UserData): Slot {
    x.(connected := true, timeout := timeout, encryptionIndex := encryptionIndex, clientId := id,
       sequence := 0, address := from, lastSend := s.time, lastReceive := s.time, userData := userData)
  }

  function KeysOf(e: M.Mapping): Keys {
    Keys(e.sendKey, e.receiveKey)
  }

  /** Puts a client in slot i; its mapping no longer expires on its own. */
  function Seat(s: ServerState, i: nat, x: Slot): (r: ServerState)
    requires i < |s.slots| && 0 <= x.encryptionIndex < s.mappings.num
    ensures |r.slots| == |s.slots| && r.maxClients == s.maxClients
  {
    s.(numConnected := s.numConnected + 1,
       mappings := M.SetExpireTime(s.mappings, x.encryptionIndex, -1.0),
       slots := s.slots[i := x],
       trace := Then(s.trace, Accepted(i, x.address, x.clientId, KeysOf(s.mappings.entries[x.encryptionIndex]))))
  }

  /** Gives slot i to a client and confirms it with a keep-alive packet. */
  function ConnectClient(s: ServerState, i: nat, from: Address, id: uint64, encryptionIndex: int, timeout: int32,
                         userData: UserData): ServerState
    requires i < |s.slots|
  {
    if !s.running || i >= s.maxClients || s.numConnected + 1 > s.maxClients || s.slots[i].connected
       || !(0 <= encryptionIndex < s.mappings.num) then
      s.(fault := true)
    else
      var joined := Seat(s, i, Taken(s, s.slots[i], from, id, encryptionIndex, timeout, userData));
      SendClient(joined, i, KeepAlivePacket(joined, i))
  }

  function ProcessResponse(a: Aead, s: ServerState, from: Address, sequence: uint64, data: ChallengeData,
                           encryptionIndex: int): ServerState {
    match OpenChallenge(a, data, sequence, s.challengeKey)
    case None => s
    case Some(t) =>
      if encryptionIndex == -1 then s
      else if !(0 <= encryptionIndex < s.mappings.num) then s.(fault := true)
      else if FindByAddress(s.slots, 0, s.maxClients, from) < s.maxClients then s
      else if FindById(s.slots, 0, s.maxClients, t.clientId) < s.maxClients then s
      else
        var entry := s.mappings.entries[encryptionIndex];
        if s.numConnected == s.maxClients then SendGlobal(s, from, Denied, entry.sendKey)
        else
          var i := FindFree(s.slots, 0, s.maxClients);
          if i == s.maxClients then s.(fault := true)
          else ConnectClient(s, i, from, t.clientId, encryptionIndex, entry.timeout, t.userData)
  }

  // ----- processing -----

  /** Keep-alive and payload packets confirm the client they come from. */
  function Hear(s: ServerState, i: nat): ServerState
    requires i < |s.slots|
  {
    PutSlot(s, i, s.slots[i].(lastReceive := s.time, confirmed := true))
  }

  /** The cases of netcode_server_process_packet that free their packet at the end. */
  function Handle(a: Aead, s: ServerState, from: Address, p: Packet, encryptionIndex: int, client: nat): ServerState
    requires client <= |s.slots|
  {
    match p
    case Request(_, _, _, _, data) => if s.ignoreRequests then s else ProcessRequest(a, s, from, data)
    case Response(n, data) => if s.ignoreResponses then s else ProcessResponse(a, s, from, n, data, encryptionIndex)
    case KeepAlive(_, _) => if client < |s.slots| then Hear(s, client) else s
    case Disconnect => if client < |s.slots| then DisconnectInternal(s, client, false) else s
    case _ => s
  }

  /** netcode_server_process_packet; `client` is a slot or |slots| for none, `id` the allocation. */
  function ProcessPacket(a: Aead, s: ServerState, from: Address, p: Packet, sequence: uint64, encryptionIndex: int,
                         client: nat, id: nat): ServerState
    requires client <= |s.slots|
  {
    if p.Payload? && client < |s.slots| then
      var heard := Hear(s, client);
      WithBox(heard, client, Enqueue(Box(heard, client), client, from, Item(id, p.data, sequence)))
    else
      var done := Handle(a, s, from, p, encryptionIndex, client);
      done.(memory := Free(done.memory, id))
  }

  /** The key packets are read with under a mapping, if there is one. */
  function KeyAt(s: ServerState, index: int): Option<Key> {
    if 0 <= index < |s.mappings.entries| then Some(s.mappings.entries[index].receiveKey) else None
  }

  function Deliver(a: Aead, s: ServerState, from: Address, reading: Reading, encryptionIndex: int, client: nat)
    : ServerState
    requires client <= |s.slots|
  {
    match reading
    case None => s
    case Some((p, sequence)) =>
      var (id, memory) := Alloc(s.memory);
      ProcessPacket(a, s.(memory := memory, trace := Then(s.trace, Processed(from, p, sequence, KeyAt(s, encryptionIndex)))), from, p, sequence,
                    encryptionIndex, client, id)
  }

  datatype Datagram = Datagram(from: Address, data: bytes)

  /** The slot, encryption index and mapping table a datagram is read with. */
  function Route(s: ServerState, from: Address): (r: (nat, int, M.Manager))
    ensures r.0 <= |s.slots| && |r.2.entries| == |s.mappings.entries| && r.2.num == s.mappings.num
    ensures r.0 < |s.slots| ==> r.0 < s.maxClients
  {
    var i := FindByAddress(s.slots, 0, s.maxClients, from);
    if i < s.maxClients then (i, s.slots[i].encryptionIndex, s.mappings)
    else
      var (index, mappings) := M.Find(s.mappings, from, s.time);
      (|s.slots|, index, mappings)
  }

  function ReadWindow(s: ServerState, client: nat): Option<Window> {
    if client < |s.slots| then Some(s.slots[client].window) else None
  }

  function PutWindow(s: ServerState, client: nat, w: Option<Window>): (r: ServerState)
    ensures |r.slots| == |s.slots| && r.maxClients == s.maxClients
  {
    if client < |s.slots| && w.Some? then PutSlot(s, client, s.slots[client].(window := w.value)) else s
  }

  /** The reader's verdict on a datagram that was routed to a client slot or a mapping. */
  function Read(a: Aead, s: ServerState, d: Datagram, now: uint64, client: nat, key: Option<Key>)
    : (Reading, Option<Window>)
  {
    ReadPacket(a, d.data, key, s.protocolId, now, Some(s.privateKey), ALLOWED, ReadWindow(s, client))
  }

  /** netcode_server_read_and_process_packet. */
  function Receive(a: Aead, s: ServerState, d: Datagram, now: uint64): ServerState {
    if !s.running || |d.data| <= 1 then s
    else
      var (client, index, mappings) := Route(s, d.from);
      var routed := s.(mappings := mappings);
      if index != -1 && !(0 <= index < mappings.num) then routed.(fault := true)
      else if index == -1 && d.data[0] != 0 then routed
      else
        var key := if index == -1 then None else Some(mappings.entries[index].receiveKey);
        var (reading, window) := Read(a, s, d, now, client, key);
        Deliver(a, PutWindow(routed, client, window), d.from, reading, index, client)
  }

  function ReceiveAll(a: Aead, s: ServerState, ds: seq<Datagram>, now: uint64): ServerState
    decreases |ds|
  {
    if ds == [] then s else ReceiveAll(a, Receive(a, s, ds[0], now), ds[1..], now)
  }

  // ----- update -----

  predicate KeepAliveDue(s: Server, x: Slot) {
    Remote(x) && x.lastSend + SEND_INTERVAL <= s.time
  }

  function SendFrom(s: ServerState, i: nat): (r: ServerState)
    requires i <= s.maxClients
    ensures |r.slots| == |s.slots| && r.maxClients == s.maxClients
    decreases s.maxClients - i
  {
    if i == s.maxClients then s
    else SendFrom(if KeepAliveDue(s, s.slots[i]) then SendClient(s, i, KeepAlivePacket(s, i)) else s, i + 1)
  }

  function SendPackets(s: ServerState): ServerState {
    if !s.running then s else SendFrom(s, 0)
  }

  predicate TimedOut(s: Server, x: Slot) {
    Remote(x) && x.timeout > 0 && x.lastReceive + x.timeout as real <= s.time
  }

  /** The first slot that timed out, or n: at most one client is dropped per update. */
  function FindTimedOut(s: ServerState, i: nat, n: nat): (k: nat)
    requires i <= n <= |s.slots|
    ensures i <= k <= n
    ensures k < n ==> TimedOut(s, s.slots[k])
    ensures forall j :: i <= j < k ==> !TimedOut(s, s.slots[j])
    decreases n - i
  {
    if i == n then n else if TimedOut(s, s.slots[i]) then i else FindTimedOut(s, i + 1, n)
  }

  function CheckTimeouts(s: ServerState): ServerState {
    if !s.running then s
    else
      var i := FindTimedOut(s, 0, s.maxClients);
      if i < s.maxClients then DisconnectInternal(s, i, false) else s
  }

  function Update(a: Aead, s: ServerState, time: real, ds: seq<Datagram>, now: uint64): ServerState {
    CheckTimeouts(SendPackets(ReceiveAll(a, s.(time := time), ds, now)))
  }

  // ----- the application's calls -----

  function SendPayload(s: ServerState, i: nat, data: bytes): ServerState
    requires s.running ==> i < |s.slots|
  {
    if !s.running then s
    else
      var x := s.slots[i];
      if !x.connected then s
      else if !x.loopback then
        SendClient(if x.confirmed then s else SendClient(s, i, KeepAlivePacket(s, i)), i, Payload(data))
      else
        s.(slots := s.slots[i := x.(sequence := Inc64(x.sequence), lastSend := s.time)],
           trace := Then(s.trace, Sent(i, NoAddress, Payload(data), x.sequence, ZERO_KEY, s.protocolId)))
  }

  function ReceivePayload(s: ServerState, i: nat): (Option<Item>, ServerState)
    requires s.running ==> i < |s.slots|
  {
    if !s.running || !s.slots[i].connected then (None, s)
    else
      var (item, b) := Dequeue(Box(s, i), i);
      (item, WithBox(s, i, b))
  }

  function ConnectLoopback(s: ServerState, i: nat, id: uint64, userData: UserData): ServerState
    requires i < |s.slots|
  {
    s.(numConnected := s.numConnected + 1,
       slots := s.slots[i := s.slots[i].(loopback := true, connected := true, confirmed := true,
                                         encryptionIndex := -1, clientId := id, sequence := 0, address := NoAddress,
                                         lastSend := s.time, lastReceive := s.time, userData := userData)],
       trace := Then(s.trace, Accepted(i, NoAddress, id, Keys(ZERO_KEY, ZERO_KEY))),
       fault := s.fault || s.numConnected + 1 > s.maxClients)
  }

  function DisconnectLoopback(s: ServerState, i: nat): ServerState
    requires i < |s.slots|
  {
    var b := Drain(Box(s, i), i);
    s.(memory := b.memory,
       trace := Then(b.trace, Released(i)),
       slots := s.slots[i := Vacated(s.slots[i]).(queue := b.queue)],
       numConnected := s.numConnected - 1,
       fault := s.fault || s.numConnected < 1)
  }

  function ProcessLoopback(s: ServerState, i: nat, data: bytes, sequence: uint64): ServerState
    requires i < |s.slots|
  {
    var (id, memory) := Alloc(s.memory);
    var heard := PutSlot(s, i, s.slots[i].(lastReceive := s.time));
    WithBox(heard, i, Enqueue(Inbox(s.slots[i].queue, memory, s.trace), i, NoAddress, Item(id, data, sequence)))
  }

  datatype Event =
    | StartEvent(max: nat, challengeKey: Key)
    | StopEvent
    | UpdateEvent(time: real, datagrams: seq<Datagram>, now: uint64)
    | SendEvent(slot: nat, data: bytes)
    | ReceiveEvent(slot: nat)
    | FreeEvent(id: nat)
    | DisconnectEvent(slot: nat)
    | DisconnectAllEvent
    | ConnectLoopbackEvent(slot: nat, clientId: uint64, userData: UserData)
    | DisconnectLoopbackEvent(slot: nat)
    | LoopbackPacketEvent(slot: nat, data: bytes, sequence: uint64)

  /** What the entry points assert of their caller. */
  predicate Enabled(s: ServerState, e: Event) {
    match e
    case StartEvent(max, _) => 0 < max <= |s.slots|
    case StopEvent => true
    case UpdateEvent(_, _, _) => true
    case SendEvent(i, data) => (s.running ==> i < s.maxClients) && |data| <= MAX_PAYLOAD_BYTES
    case ReceiveEvent(i) => s.running ==> i < s.maxClients
    case FreeEvent(id) => id in s.memory.held
    case DisconnectEvent(i) => s.running ==> i < s.maxClients && !s.slots[i].loopback
    case DisconnectAllEvent => true
    case ConnectLoopbackEvent(i, _, _) => i < s.maxClients && s.running && !s.slots[i].connected
    case DisconnectLoopbackEvent(i) => i < s.maxClients && s.running && s.slots[i].connected && s.slots[i].loopback
    case LoopbackPacketEvent(i, data, _) =>
      i < s.maxClients && s.running && s.slots[i].connected && s.slots[i].loopback && |data| <= MAX_PAYLOAD_BYTES
  }

  function Step(a: Aead, s: ServerState, e: Event): ServerState
    requires Enabled(s, e)
  {
    match e
    case StartEvent(max, key) => Start(s, max, key)
    case StopEvent => Stop(s)
    case UpdateEvent(time, datagrams, now) => Update(a, s, time, datagrams, now)
    case SendEvent(i, data) => SendPayload(s, i, data)
    case ReceiveEvent(i) => ReceivePayload(s, i).1
    case FreeEvent(id) => s.(memory := GiveBack(s.memory, id))
    case DisconnectEvent(i) => DisconnectClient(s, i)
    case DisconnectAllEvent => DisconnectAll(s)
    case ConnectLoopbackEvent(i, id, userData) => ConnectLoopback(s, i, id, userData)
    case DisconnectLoopbackEvent(i) => DisconnectLoopback(s, i)
    case LoopbackPacketEvent(i, data, sequence) => ProcessLoopback(s, i, data, sequence)
  }
}
