/** What each call, each update and each packet makes a client do, with the whole state it leaves
    behind.  Packets are the bytes a server writes. */
module ClientAnswers {
  import opened Types
  import opened Crypto
  import opened Tokens
  import opened Packets
  import opened Replay
  import opened Queue
  import opened Traces
  import opened Memory
  import opened Inbox
  import opened Client
  import opened ClientRuns

  /** The trace going on with the given effects. */
  function Followed(t: Trace, es: seq<Effect>): Trace
    decreases |es|
  {
    if es == [] then t else Followed(Then(t, es[0]), es[1..])
  }

  lemma {:induction false} FollowedOnce(t: Trace, es: seq<Effect>, e: Effect)
    ensures Followed(Then(t, e), es) == Followed(t, [e] + es)
  {
    assert ([e] + es)[1..] == es;
  }

  // ----- becoming idle -----

  function Discards(items: seq<Item>): seq<Effect> {
    seq(|items|, k requires 0 <= k < |items| => Discarded(0, items[k]))
  }

  /** The client idle in the given state: everything about the connection is forgotten, the callback
      is told, and the payloads nobody took are freed in order. */
  ghost function Ended(c: Client, state: int): Client {
    Client(state, c.time, c.time, c.time - 1.0, c.time, false, 0, 0, 0, 0, 0, NoAddress, NO_CONNECT_TOKEN,
           ZERO_KEY, ZERO_KEY, Fresh(|c.window.received|), Empty(|c.queue.slots|), 0, ZERO_CHALLENGE_DATA, false,
           c.memory.(freed := c.memory.freed + Ids(Contents(c.queue))),
           Followed(Then(c.trace, Changed(c.state, state)), Discards(Contents(c.queue))))
  }

  lemma {:induction false} PopAllDiscards(b: Inbox)
    ensures PopAll(b, 0).trace == Followed(b.trace, Discards(Contents(b.queue)))
    decreases b.queue.num
  {
    PopContents(b.queue);
    var (item, rest) := Pop(b.queue);
    var items := Contents(b.queue);
    if item.Some? {
      assert Discards(items) == [Discarded(0, items[0])] + Discards(items[1..]);
      FollowedOnce(b.trace, Discards(items[1..]), Discarded(0, items[0]));
      PopAllDiscards(Inbox(rest, Free(b.memory, item.value.id), Then(b.trace, Discarded(0, item.value))));
    }
  }

  lemma ResetEnds(c: Client, state: int)
    ensures ResetConnectionData(c, state) == Ended(c, state)
  {
    var reset := ResetBeforeNextConnect(SetState(ForgetConnection(c), state));
    PopAllDiscards(Box(reset));
    PopAllLedger(Box(reset), 0);
    assert ClearFrees(PopAll(Box(reset), 0).queue) == [];
    hide PopAll, Followed, Contents, Ids;
  }

  // ----- an update -----

  /** The client once it has sent what is due: in each state its own packet, when the last one was sent
      more than a tenth of a second ago. */
  function Spoken(c: Client): Client
    requires 1 <= c.state <= 3
  {
    if c.time <= c.lastSend + 0.1 then c
    else
      var packet := if c.state == 1 then
                      Request(VERSION_INFO, c.token.protocolId, c.token.expireTimestamp, c.token.sequence, c.token.privateData)
                    else if c.state == 2 then Response(c.challengeSequence, c.challengeData)
                    else KeepAlive(0, 0);
      c.(sequence := (c.sequence + 1) % TWO64,
         lastSend := c.time,
         trace := Then(c.trace, Sent(0, c.serverAddress, packet, c.sequence, c.writeKey, c.token.protocolId)))
  }

  /** The client aiming at the next server of its token. */
  function AtNextServer(c: Client): Client
    requires c.serverIndex + 1 < |c.token.servers|
  {
    c.(state := 1, serverIndex := c.serverIndex + 1, serverAddress := c.token.servers[c.serverIndex + 1],
       connectStart := c.time, lastReceive := c.time, lastSend := c.time - 1.0,
       shouldDisconnect := false, shouldDisconnectState := 0,
       challengeSequence := 0, challengeData := ZERO_CHALLENGE_DATA, window := Fresh(|c.window.received|),
       trace := Then(c.trace, Changed(c.state, 1)))
  }

  /** The token's lifetime ran out while the client was connecting. */
  predicate Expired(c: Client) {
    c.state < 3 && c.connectStart + ((c.token.expireTimestamp - c.token.createTimestamp) % TWO64) as real <= c.time
  }

  /** The server has been silent for longer than the token's timeout. */
  predicate Overdue(c: Client) {
    c.token.timeoutSeconds > 0 && c.lastReceive + c.token.timeoutSeconds as real < c.time
  }

  predicate AtLastServer(c: Client) {
    c.serverIndex + 1 >= |c.token.servers|
  }

  /** How an update ends, given the client once it has heard the datagrams. */
  ghost predicate Settles(heard: Client, r: Client)
    requires 1 <= heard.state <= 3
  {
    var waits := !Expired(heard) && !heard.shouldDisconnect;
    var last := AtLastServer(heard);
    && (r.state == -6 <==> Expired(heard))
    && (r.state == -1 <==> !Expired(heard) && heard.shouldDisconnect && heard.shouldDisconnectState == -1 && last)
    && (r.state == 0 <==> !Expired(heard) && heard.shouldDisconnect && heard.shouldDisconnectState == 0 && last)
    && (r.state == -2 <==> waits && heard.state == 1 && Overdue(heard) && last)
    && (r.state == -3 <==> waits && heard.state == 2 && Overdue(heard) && last)
    && (r.state == -4 <==> waits && heard.state == 3 && Overdue(heard))
    && (r.state in {-6, -4, -3, -2, -1, 0} ==> r == Ended(Spoken(heard), r.state))
    && (r.state !in {-6, -4, -3, -2, -1, 0} ==>
          if heard.shouldDisconnect || Overdue(heard) then !last && r == AtNextServer(Spoken(heard))
          else r == Spoken(heard))
  }

  /** A live client that is told to disconnect was denied or disconnected by its server. */
  predicate Pending(c: Client) {
    c.shouldDisconnect ==> c.shouldDisconnectState == -1 || c.shouldDisconnectState == 0
  }

  /** An update of a live client: what is due is sent, whatever becomes of the client. Then it is idle
      in each of the idle states on exactly one condition on what it has heard and the time; on the
      others it aims at the next server, or goes on as it was. */
  lemma UpdateSettles(a: Aead, c: Client, time: real, ds: seq<Datagram>, now: uint64)
    requires Inv(c) && Live(c) && !c.shouldDisconnect
    ensures var heard := ReceiveAll(a, c.(time := time), ds, now);
            1 <= heard.state <= 3 && Settles(heard, Update(a, c, time, ds, now))
  {
    var ticked := c.(time := time);
    TimeInv(c, time);
    ReceiveAllInv(a, ticked, ds, now);
    ReceiveAllPending(a, ticked, ds, now);
    hide Inv, ReceiveAll, SendPackets, CheckDeadlines, Settles;
    var heard := ReceiveAll(a, ticked, ds, now);
    AimedFacts(heard);
    SpeaksExactly(heard);
    DeadlinesSettle(heard);
  }

  lemma SpeaksExactly(c: Client)
    requires 1 <= c.state <= 3
    ensures SendPackets(c) == Spoken(c)
  {
  }

  lemma DeadlinesSettle(c: Client)
    requires Aimed(c) && Live(c) && Pending(c)
    ensures Settles(c, CheckDeadlines(Spoken(c)))
  {
    hide ResetConnectionData, Ended, AtNextServer, Spoken, Settles;
    var s := Spoken(c);
    SpokenShape(c);
    forall state: int
      ensures ResetConnectionData(s, state) == Ended(s, state) && Ended(s, state).state == state
    {
      ResetEnds(s, state);
      EndedState(s, state);
    }
    MovesOn(s);
    DeadlinesDecide(c, s);
  }

  lemma EndedState(c: Client, state: int)
    ensures Ended(c, state).state == state
  {
  }

  lemma SpokenShape(c: Client)
    requires 1 <= c.state <= 3
    ensures var r := Spoken(c);
            r == c.(sequence := r.sequence, lastSend := r.lastSend, trace := r.trace)
  {
  }

  lemma MovesOn(c: Client)
    ensures c.serverIndex + 1 < |c.token.servers| ==>
              && ConnectToNextServer(c) == (true, AtNextServer(c)) && AtNextServer(c).state == 1
    ensures c.serverIndex + 1 >= |c.token.servers| ==> ConnectToNextServer(c) == (false, c)
  {
  }

  lemma DeadlinesDecide(c: Client, s: Client)
    requires Aimed(c) && Live(c) && Pending(c) && s == Spoken(c)
    requires s == c.(sequence := s.sequence, lastSend := s.lastSend, trace := s.trace)
    requires forall state: int :: ResetConnectionData(s, state) == Ended(s, state) && Ended(s, state).state == state
    requires if c.serverIndex + 1 < |c.token.servers| then ConnectToNextServer(s) == (true, AtNextServer(s)) && AtNextServer(s).state == 1
             else ConnectToNextServer(s) == (false, s)
    ensures Settles(c, CheckDeadlines(s))
  {
    hide ResetConnectionData, Ended, AtNextServer, Spoken, ConnectToNextServer;
  }

  lemma {:induction false} ReceiveAllPending(a: Aead, c: Client, ds: seq<Datagram>, now: uint64)
    requires Pending(c) && Live(c)
    ensures Pending(ReceiveAll(a, c, ds, now)) && Live(ReceiveAll(a, c, ds, now))
    decreases |ds|
  {
    hide ReadPacket, Enqueue;
    if ds != [] {
      ReceiveAllPending(a, Receive(a, c, ds[0], now), ds[1..], now);
    }
  }

  /** Without datagrams: a live client is idle after an update exactly when its token expired, or when
      it was not heard for too long and has no further server; a connected one never turns to the next
      server. */
  lemma QuietUpdateSettles(a: Aead, c: Client, time: real, now: uint64)
    requires Inv(c) && Live(c) && !c.shouldDisconnect
    ensures var r := Update(a, c, time, [], now);
            var heard := c.(time := time);
            var expired := c.state < 3
                           && c.connectStart + ((c.token.expireTimestamp - c.token.createTimestamp) % TWO64) as real <= time;
            var overdue := c.token.timeoutSeconds > 0 && c.lastReceive + c.token.timeoutSeconds as real < time;
            && 1 <= c.state <= 3
            && (r.state == -6 <==> expired)
            && (r.state == -2 <==> !expired && overdue && c.state == 1 && c.serverIndex + 1 == |c.token.servers|)
            && (r.state == -3 <==> !expired && overdue && c.state == 2 && c.serverIndex + 1 == |c.token.servers|)
            && (r.state == -4 <==> overdue && c.state == 3)
            && r.state !in {-5, -1, 0}
            && (r.state <= 0 ==> r == Ended(Spoken(heard), r.state))
            && (r.state > 0 && overdue ==> c.serverIndex + 1 < |c.token.servers| && r == AtNextServer(Spoken(heard)))
            && (r.state > 0 && !overdue ==> r == Spoken(heard))
  {
    UpdateSettles(a, c, time, [], now);
    AimedFacts(c);
    hide Inv, Ended, Update;
    assert ReceiveAll(a, c.(time := time), [], now) == c.(time := time);
    SpokenState(c.(time := time));
  }

  lemma SpokenState(c: Client)
    requires 1 <= c.state <= 3
    ensures Spoken(c).state == c.state
  {
  }

  /** A connected client on the network keeps itself alive: an update within its deadlines sends a
      keep-alive packet under the client's key, if the last packet was sent more than a tenth of a
      second ago, and nothing otherwise. */
  lemma ConnectedKeepsAlive(a: Aead, c: Client, time: real, now: uint64)
    requires Inv(c) && Live(c) && !c.shouldDisconnect && c.state == 3
    requires c.token.timeoutSeconds <= 0 || time <= c.lastReceive + c.token.timeoutSeconds as real
    ensures Update(a, c, time, [], now)
         == if time <= c.lastSend + 0.1 then c.(time := time)
            else c.(time := time, lastSend := time, sequence := (c.sequence + 1) % TWO64,
                    trace := Then(c.trace, Sent(0, c.serverAddress, KeepAlive(0, 0), c.sequence, c.writeKey,
                                                c.token.protocolId)))
  {
    QuietUpdateSettles(a, c, time, now);
    hide Inv, Ended, Update;
  }

  /** Idle and loopback clients do nothing in an update but note the time. */
  lemma OthersTick(a: Aead, c: Client, time: real, ds: seq<Datagram>, now: uint64)
    requires Inv(c) && !c.shouldDisconnect && !Live(c) && (c.loopback || ds == [])
    ensures Update(a, c, time, ds, now) == c.(time := time)
  {
    AimedFacts(c);
    hide Inv;
  }

  /** Datagrams are heard one after the other, each by the client the ones before it left. */
  lemma {:induction false} HeardInOrder(a: Aead, c: Client, ds: seq<Datagram>, d: Datagram, now: uint64)
    ensures ReceiveAll(a, c, ds + [d], now) == Receive(a, ReceiveAll(a, c, ds, now), d, now)
    decreases |ds|
  {
    hide Receive;
    if ds == [] {
      assert [d][1..] == [];
    } else {
      assert (ds + [d])[1..] == ds[1..] + [d];
      HeardInOrder(a, Receive(a, c, ds[0], now), ds[1..], d, now);
    }
  }

  // ----- packets -----

  function Wire(a: Aead, c: Client, from: Address, p: Packet, q: uint64): Datagram {
    Datagram(from, WritePacket(a, p, q, c.readKey, c.token.protocolId))
  }

  /** The client with the packet read and on record; the packet is allocated. */
  function Noted(c: Client, from: Address, p: Packet, q: uint64, w: Window): Client {
    c.(window := w, memory := c.memory.(next := c.memory.next + 1),
       trace := Then(c.trace, Processed(from, p, q, Some(c.readKey))))
  }

  /** The same, with the packet freed again. */
  function Done(c: Client, from: Address, p: Packet, q: uint64, w: Window): Client {
    var m := c.memory;
    Noted(c, from, p, q, w).(memory := m.(next := m.next + 1, freed := m.freed + multiset{m.next}))
  }

  /** The packets a server sends are read, unless the window refuses them; denials and challenges do
      not go through the window.  A response is not read. */
  lemma PacketIsRead(a: Aead, c: Client, from: Address, p: Packet, q: uint64, now: uint64)
    requires Lawful(a) && Legal(p) && !p.Request?
    ensures var r := Receive(a, c, Wire(a, c, from, p, q), now);
            var (refused, w) := AlreadyReceived(c.window, q);
            if p.Response? then r == c
            else if p.Denied? || p.Challenge? then r == Deliver(c, from, Some((p, q)))
            else if refused then r == c.(window := w)
            else r == Deliver(c.(window := w), from, Some((p, q)))
  {
    hide Lawful, ReadPacket, WritePacket, Deliver, AlreadyReceived;
    SealedRoundTrip(a, p, q, c.readKey, c.token.protocolId, now, None, ALLOWED, Some(c.window));
    assert c.(window := c.window) == c;
    NothingDelivered(c, from);
    NothingDelivered(c.(window := AlreadyReceived(c.window, q).1), from);
  }

  /** A packet that is no payload is handled and freed. */
  lemma Handled(c: Client, from: Address, p: Packet, q: uint64, w: Window)
    requires !p.Payload?
    ensures Deliver(c.(window := w), from, Some((p, q)))
         == Handle(Noted(c, from, p, q, w), from, p).(memory := Done(c, from, p, q, w).memory)
  {
    HandleKeepsMemory(Noted(c, from, p, q, w), from, p);
    hide Handle;
  }

  lemma HandleKeepsMemory(c: Client, from: Address, p: Packet)
    ensures Handle(c, from, p).memory == c.memory
  {
  }

  lemma NothingDelivered(c: Client, from: Address)
    ensures Deliver(c, from, None) == c
  {
  }

  /** A denial counts while the client is connecting, and only from the server it aims at. */
  lemma DenialHeard(a: Aead, c: Client, from: Address, q: uint64, now: uint64)
    requires Lawful(a)
    ensures var done := Done(c, from, Denied, q, c.window);
            Receive(a, c, Wire(a, c, from, Denied, q), now)
            == if c.state in {1, 2} && from == c.serverAddress != NoAddress then
                 done.(shouldDisconnect := true, shouldDisconnectState := -1, lastReceive := c.time)
               else done
  {
    hide Lawful, ReadPacket, WritePacket, AlreadyReceived, Receive;
    PacketIsRead(a, c, from, Denied, q, now);
    Handled(c, from, Denied, q, c.window);
    assert c.(window := c.window) == c;
    hide Deliver;
  }

  /** A challenge counts while the client is requesting: it takes the challenge over and answers from
      then on. */
  lemma ChallengeHeard(a: Aead, c: Client, from: Address, n: uint64, data: ChallengeData, q: uint64, now: uint64)
    requires Lawful(a)
    ensures var done := Done(c, from, Challenge(n, data), q, c.window);
            Receive(a, c, Wire(a, c, from, Challenge(n, data), q), now)
            == if c.state == 1 && from == c.serverAddress != NoAddress then
                 done.(state := 2, challengeSequence := n, challengeData := data, lastReceive := c.time,
                       trace := Then(done.trace, Changed(1, 2)))
               else done
  {
    hide Lawful, ReadPacket, WritePacket, AlreadyReceived, Receive;
    PacketIsRead(a, c, from, Challenge(n, data), q, now);
    Handled(c, from, Challenge(n, data), q, c.window);
    assert c.(window := c.window) == c;
    hide Deliver;
  }

  /** A keep-alive packet connects a client that is answering, with its index and the number of slots;
      a connected client stays as it is, but for the time it was heard. */
  lemma KeepAliveHeard(a: Aead, c: Client, from: Address, index: int32, max: int32, q: uint64, now: uint64)
    requires Lawful(a)
    ensures var (refused, w) := AlreadyReceived(c.window, q);
            var done := Done(c, from, KeepAlive(index, max), q, w);
            Receive(a, c, Wire(a, c, from, KeepAlive(index, max), q), now)
            == if refused then c.(window := w)
               else if c.state == 3 && from == c.serverAddress != NoAddress then done.(lastReceive := c.time)
               else if c.state == 2 && from == c.serverAddress != NoAddress then
                 done.(state := 3, clientIndex := index, maxClients := max, lastReceive := c.time,
                       trace := Then(done.trace, Changed(2, 3)))
               else done
  {
    hide Lawful, ReadPacket, WritePacket, AlreadyReceived, Receive;
    PacketIsRead(a, c, from, KeepAlive(index, max), q, now);
    Handled(c, from, KeepAlive(index, max), q, AlreadyReceived(c.window, q).1);
    hide Deliver;
  }

  /** A disconnect packet counts only for a connected client. */
  lemma DisconnectHeard(a: Aead, c: Client, from: Address, q: uint64, now: uint64)
    requires Lawful(a)
    ensures var (refused, w) := AlreadyReceived(c.window, q);
            var done := Done(c, from, Disconnect, q, w);
            Receive(a, c, Wire(a, c, from, Disconnect, q), now)
            == if refused then c.(window := w)
               else if c.state == 3 && from == c.serverAddress != NoAddress then
                 done.(shouldDisconnect := true, shouldDisconnectState := 0, lastReceive := c.time)
               else done
  {
    hide Lawful, ReadPacket, WritePacket, AlreadyReceived, Receive;
    PacketIsRead(a, c, from, Disconnect, q, now);
    Handled(c, from, Disconnect, q, AlreadyReceived(c.window, q).1);
    hide Deliver;
  }

  /** A payload is queued while there is room, and freed otherwise. */
  lemma QueuesOrDrops(b: Inbox, from: Address, item: Item)
    ensures var r := Enqueue(b, 0, from, item);
            var full := |Contents(b.queue)| >= |b.queue.slots|;
            && Contents(r.queue) == (if full then Contents(b.queue) else Contents(b.queue) + [item])
            && r.memory == b.memory.(freed := b.memory.freed + if full then multiset{item.id} else multiset{})
            && r.trace == Then(b.trace, if full then Dropped(0, item) else Queued(0, from, item))
  {
    PushContents(b.queue, item);
    hide Contents, Push;
  }

  /** A payload counts for a connected client. */
  lemma PayloadHeard(a: Aead, c: Client, from: Address, data: bytes, q: uint64, now: uint64)
    requires Lawful(a) && 1 <= |data| <= MAX_PAYLOAD_BYTES
    ensures var r := Receive(a, c, Wire(a, c, from, Payload(data), q), now);
            var (refused, w) := AlreadyReceived(c.window, q);
            var item := Item(c.memory.next, data, q);
            var full := |Contents(c.queue)| >= |c.queue.slots|;
            var noted := Noted(c, from, Payload(data), q, w);
            if refused then r == c.(window := w)
            else if !(c.state == 3 && from == c.serverAddress != NoAddress) then r == Done(c, from, Payload(data), q, w)
            else
              && Contents(r.queue) == (if full then Contents(c.queue) else Contents(c.queue) + [item])
              && r == noted.(lastReceive := c.time, queue := r.queue,
                             memory := if full then Done(c, from, Payload(data), q, w).memory else noted.memory,
                             trace := Then(noted.trace, if full then Dropped(0, item) else Queued(0, from, item)))
  {
    hide Lawful, ReadPacket, WritePacket, AlreadyReceived, Receive, Contents, Enqueue;
    PacketIsRead(a, c, from, Payload(data), q, now);
    var noted := Noted(c, from, Payload(data), q, AlreadyReceived(c.window, q).1);
    QueuesOrDrops(Box(noted), from, Item(c.memory.next, data, q));
  }

  /** Requests and responses are not for clients. */
  lemma OthersUnheard(a: Aead, c: Client, from: Address, p: Packet, q: uint64, now: uint64)
    requires Lawful(a) && (p.Request? || p.Response?)
    ensures Receive(a, c, Wire(a, c, from, p, q), now) == c
  {
    if p.Response? {
      hide Lawful, WritePacket, AlreadyReceived, ReadPacket, Receive;
      PacketIsRead(a, c, from, p, q, now);
    } else {
      RequestRoundTrip(a, p, q, c.readKey, Some(c.readKey), c.token.protocolId, now, None, ALLOWED, Some(c.window));
      hide Lawful, WritePacket, ReadPacket, AlreadyReceived;
      assert c.(window := c.window) == c;
    }
  }

  /** One denial, and nothing else, settles a client that is connecting: it is idle, denied, if it has no
      further server, and otherwise aims at that. */
  lemma DenialSettles(a: Aead, c: Client, q: uint64, time: real, now: uint64)
    requires Lawful(a) && Inv(c) && Live(c) && !c.shouldDisconnect && c.state < 3
    requires time < c.connectStart + ((c.token.expireTimestamp - c.token.createTimestamp) % TWO64) as real
    ensures var r := Update(a, c, time, [Wire(a, c, c.serverAddress, Denied, q)], now);
            if c.serverIndex + 1 == |c.token.servers| then r.state == -1
            else r.state == 1 && r.serverIndex == c.serverIndex + 1 && r.serverAddress == c.token.servers[c.serverIndex + 1]
  {
    var ticked := c.(time := time);
    var d := Wire(a, c, c.serverAddress, Denied, q);
    hide Lawful, WritePacket, Receive, Update, Inv, Ended;
    AimedFacts(c);
    DenialHeard(a, ticked, c.serverAddress, q, now);
    UpdateSettles(a, c, time, [d], now);
    HeardInOrder(a, ticked, [], d, now);
    assert [] + [d] == [d];
    SpokenState(ReceiveAll(a, ticked, [d], now));
  }

  // ----- the application's calls -----

  /** A send call of a connected client on the network sends the payload under its key. */
  lemma PayloadGoesOut(a: Aead, c: Client, data: bytes)
    requires Live(c) && c.state == 3 && |data| <= MAX_PAYLOAD_BYTES
    ensures Enabled(c, SendEvent(data))
    ensures Step(a, c, SendEvent(data))
         == c.(sequence := (c.sequence + 1) % TWO64, lastSend := c.time,
               trace := Then(c.trace, Sent(0, c.serverAddress, Payload(data), c.sequence, c.writeKey, c.token.protocolId)))
  {
  }

  /** A loopback client passes its payload on with the next number; a client that is not connected
      sends nothing. */
  lemma PayloadElsewhere(a: Aead, c: Client, data: bytes)
    requires Enabled(c, SendEvent(data)) && !(Live(c) && c.state == 3)
    ensures Step(a, c, SendEvent(data))
         == if c.state == 3 then
              c.(sequence := (c.sequence + 1) % TWO64,
                 trace := Then(c.trace, Sent(0, NoAddress, Payload(data), c.sequence, ZERO_KEY, c.token.protocolId)))
            else c
  {
  }

  /** A receive call returns the oldest payload in the queue, and nothing only when the queue is empty.
      What it returns leaves the queue and is the application's from then on. */
  lemma OldestIsTaken(c: Client)
    ensures var (item, r) := ReceivePayload(c);
            var waiting := Contents(c.queue);
            && (item.None? <==> waiting == [])
            && (item.None? ==> r == c)
            && (item.Some? ==>
                  && item.value == waiting[0]
                  && Contents(r.queue) == waiting[1..]
                  && r == c.(queue := r.queue, trace := Then(c.trace, Handed(0, item.value)),
                             memory := c.memory.(held := c.memory.held + multiset{item.value.id})))
  {
    PopContents(c.queue);
    hide Contents, Pop;
  }

  /** A packet the application gives back is freed. */
  lemma GivenBack(a: Aead, c: Client, id: nat)
    requires id in c.memory.held
    ensures Enabled(c, FreeEvent(id))
    ensures Step(a, c, FreeEvent(id))
         == c.(memory := c.memory.(freed := c.memory.freed + multiset{id}, held := c.memory.held - multiset{id}))
  {
  }

  /** The disconnect packets that tell the server the client is leaving, numbered on from its counter. */
  function Farewells(c: Client, n: nat): seq<Effect> {
    seq(n, k requires 0 <= k < n =>
      Sent(0, c.serverAddress, Disconnect, (c.sequence + k) % TWO64, c.writeKey, c.token.protocolId))
  }

  /** The client gone at the application's wish: the server is told ten times. */
  ghost function Left(c: Client): Client {
    if c.state > 0 then Ended(c.(trace := Followed(c.trace, Farewells(c, 10))), 0) else c
  }

  lemma ClientLeaves(a: Aead, c: Client)
    requires !c.loopback
    ensures Enabled(c, DisconnectEvent) && Step(a, c, DisconnectEvent) == Left(c)
  {
    hide ResetConnectionData, SendDisconnects, Ended, Followed, Farewells;
    if c.state > 0 {
      TellsTen(c, 10);
      var told := SendDisconnects(c, 10);
      ResetEnds(told, 0);
      EndedForgets(c, told, c.(trace := Followed(c.trace, Farewells(c, 10))));
    }
  }

  lemma EndedForgets(c: Client, d: Client, e: Client)
    requires d == c.(sequence := d.sequence, lastSend := d.lastSend, trace := d.trace) && e == c.(trace := d.trace)
    ensures Ended(d, 0) == Ended(e, 0)
  {
    hide Followed, Contents, Ids;
  }

  lemma {:induction false} TellsTen(c: Client, n: nat)
    ensures var r := SendDisconnects(c, n);
            r == c.(sequence := r.sequence, lastSend := r.lastSend, trace := Followed(c.trace, Farewells(c, n)))
    decreases n
  {
    hide Followed, Farewells, SendToServer;
    if n > 0 {
      var next := SendToServer(c, Disconnect);
      TellsTen(next, n - 1);
      FarewellsNext(c, n);
      FollowedOnce(c.trace, Farewells(next, n - 1), next.trace.last);
      SendShape(c);
    } else {
      assert Followed(c.trace, Farewells(c, 0)) == c.trace by {
        NoFarewells(c);
      }
    }
  }

  lemma NoFarewells(c: Client)
    ensures Followed(c.trace, Farewells(c, 0)) == c.trace
  {
  }

  lemma SendShape(c: Client)
    ensures var r := SendToServer(c, Disconnect);
            && r.trace.Then? && r.trace.past == c.trace
            && r == c.(sequence := r.sequence, lastSend := r.lastSend, trace := r.trace)
  {
  }

  lemma FarewellsNext(c: Client, n: nat)
    requires n > 0
    ensures var next := SendToServer(c, Disconnect);
            next.trace.Then? && Farewells(c, n) == [next.trace.last] + Farewells(next, n - 1)
  {
    var next := SendToServer(c, Disconnect);
    forall k | 0 <= k < n
      ensures Farewells(c, n)[k] == ([next.trace.last] + Farewells(next, n - 1))[k]
    {
      if k > 0 {
        assert (next.sequence + (k - 1)) % TWO64 == (c.sequence + k) % TWO64;
      }
    }
  }

  /** A connect call leaves whatever the client was doing first. With a token that does not read the
      client is idle in state -5; otherwise it requests from the first server, under the token's keys. */
  lemma ClientConnects(a: Aead, c: Client, tokenData: bytes)
    requires !c.loopback
    ensures Enabled(c, ConnectEvent(tokenData))
    ensures var idle := Left(c);
            Step(a, c, ConnectEvent(tokenData))
            == match ReadConnect(tokenData)
               case None => idle.(state := -5, trace := Then(idle.trace, Changed(idle.state, -5)))
               case Some(t) =>
                 idle.(state := 1, token := t, serverIndex := 0, serverAddress := t.servers[0],
                       readKey := t.serverToClientKey, writeKey := t.clientToServerKey,
                       connectStart := c.time, lastReceive := c.time, lastSend := c.time - 1.0,
                       shouldDisconnect := false, shouldDisconnectState := 0,
                       challengeSequence := 0, challengeData := ZERO_CHALLENGE_DATA,
                       window := Fresh(|c.window.received|), trace := Then(idle.trace, Changed(idle.state, 1)))
  {
    hide Left, ReadConnect, DisconnectInternal, ResetBeforeNextConnect, SetState;
    ClientLeaves(a, c);
    LeftFacts(c);
    match ReadConnect(tokenData)
    case None => CallbackTold(Left(c), -5);
    case Some(t) => AimsFirst(Left(c), t);
  }

  lemma CallbackTold(c: Client, state: int)
    ensures SetState(c, state) == c.(state := state, trace := Then(c.trace, Changed(c.state, state)))
  {
  }

  lemma AimsFirst(c: Client, t: ConnectToken)
    requires t.WellFormed()
    ensures var aimed := c.(token := t, serverIndex := 0, serverAddress := t.servers[0],
                            readKey := t.serverToClientKey, writeKey := t.clientToServerKey);
            SetState(ResetBeforeNextConnect(aimed), SENDING_REQUEST)
            == aimed.(state := 1, connectStart := c.time, lastReceive := c.time, lastSend := c.time - 1.0,
                      shouldDisconnect := false, shouldDisconnectState := 0,
                      challengeSequence := 0, challengeData := ZERO_CHALLENGE_DATA,
                      window := Fresh(|c.window.received|), trace := Then(c.trace, Changed(c.state, 1)))
  {
  }

  lemma LeftFacts(c: Client)
    ensures Left(c).time == c.time && |Left(c).window.received| == |c.window.received|
  {
  }

  // ----- loopback clients -----

  /** A loopback client is connected at once, and leaves without a word. */
  lemma LoopbackConnects(a: Aead, c: Client, index: int32, max: int32)
    requires Enabled(c, ConnectLoopbackEvent(index, max))
    ensures Step(a, c, ConnectLoopbackEvent(index, max))
         == c.(state := 3, clientIndex := index, maxClients := max, loopback := true)
  {
  }

  lemma LoopbackLeaves(a: Aead, c: Client)
    requires Enabled(c, DisconnectLoopbackEvent)
    ensures Step(a, c, DisconnectLoopbackEvent) == Ended(c, 0)
  {
    ResetEnds(c, 0);
  }

  /** Its payloads go straight to the queue, and are freed when that is full. */
  lemma LoopbackPayloadArrives(a: Aead, c: Client, data: bytes, q: uint64)
    requires Enabled(c, LoopbackPacketEvent(data, q))
    ensures var r := Step(a, c, LoopbackPacketEvent(data, q));
            var item := Item(c.memory.next, data, q);
            var full := |Contents(c.queue)| >= |c.queue.slots|;
            && Contents(r.queue) == (if full then Contents(c.queue) else Contents(c.queue) + [item])
            && r == c.(queue := r.queue,
                       memory := c.memory.(next := c.memory.next + 1,
                                           freed := c.memory.freed + if full then multiset{item.id} else multiset{}),
                       trace := Then(c.trace, if full then Dropped(0, item) else Queued(0, NoAddress, item)))
  {
    hide Enqueue, Contents;
    QueuesOrDrops(Inbox(c.queue, Alloc(c.memory).1, c.trace), NoAddress, Item(c.memory.next, data, q));
  }
}
