/** What every run of the client keeps. */
module ClientRuns {
  import opened Types
  import opened Crypto
  import opened Tokens
  import opened Packets
  import opened Replay
  import opened Queue
  import opened Traces
  import opened Memory
  import opened Inbox
  import opened Client

  /** A live client aims at the server its index names, with the keys of its token; an idle
      client has no queue, no sequence and no pending disconnect. */
  ghost predicate Aimed(c: Client) {
    && CONNECT_TOKEN_EXPIRED <= c.state <= CONNECTED
    && (c.loopback ==> c.state == CONNECTED && !c.shouldDisconnect)
    && (c.state <= DISCONNECTED ==> Contents(c.queue) == [] && c.sequence == 0 && !c.shouldDisconnect)
    && (c.shouldDisconnect ==> CONNECT_TOKEN_EXPIRED < c.shouldDisconnectState <= DISCONNECTED)
    && (Live(c) ==>
          && c.token.WellFormed()
          && c.serverIndex < |c.token.servers|
          && c.serverAddress == c.token.servers[c.serverIndex]
          && c.readKey == c.token.serverToClientKey
          && c.writeKey == c.token.clientToServerKey)
  }

  /** Every allocated packet is queued, held by the application or freed, exactly once. */
  ghost predicate Conserves(c: Client) {
    Balanced(c.memory, Ids(Contents(c.queue)))
  }

  /** The queue is first-in first-out over the whole run, and hands over in order within each
      connection. */
  ghost predicate KeepsOrder(c: Client) {
    InOrder(Box(c), 0) && Hands(Box(c), 0)
  }

  /** Within one attempt no sequence below 2^63 is queued twice, and those queued would be refused. */
  ghost predicate DeliversOnce(c: Client) {
    Live(c) ==>
      && DistinctBelow63(QueuedSince(c.trace, 0))
      && (forall q :: q in QueuedSince(c.trace, 0) && q < TWO63 ==> AlreadyReceived(c.window, q).0)
  }

  /** From connect until the client is idle again, it consumes the sequences 0, 1, 2, ... */
  ghost predicate Counts(c: Client) {
    && CountsFrom(0, SentSince(c.trace, 0))
    && c.sequence == |SentSince(c.trace, 0)| % TWO64
  }

  /** States 2 and 3 are reached only through the handshake with the server aimed at. */
  ghost predicate Handshakes(c: Client) {
    && (Live(c) && c.state == SENDING_RESPONSE ==> Challenged(c.trace, c.serverAddress))
    && (Live(c) && c.state == CONNECTED ==> Confirmed(c.trace, c.serverAddress))
    && QueuesConfirmed(c.trace)
  }

  ghost predicate Inv(c: Client) {
    Aimed(c) && Conserves(c) && KeepsOrder(c) && DeliversOnce(c) && Counts(c) && Handshakes(c)
  }

  lemma CreateInv(time: real)
    ensures Inv(Create(time))
  {
  }

  // ----- returning to an idle state -----

  /** Whatever state the client was in, it ends idle with nothing queued and nothing lost. */
  lemma ResetInv(c: Client, state: int)
    requires Conserves(c) && KeepsOrder(c) && QueuesConfirmed(c.trace)
    requires CONNECT_TOKEN_EXPIRED <= state <= DISCONNECTED
    ensures Inv(ResetConnectionData(c, state))
    ensures LiveChanges(ResetConnectionData(c, state).trace) == LiveChanges(c.trace)
    ensures ResetConnectionData(c, state).state == state && !ResetConnectionData(c, state).loopback
    ensures ResetConnectionData(c, state).time == c.time
  {
    hide Drain;
    var b := ResetBeforeNextConnect(SetState(ForgetConnection(c), state));
    assert SentSince(b.trace, 0) == [];
    assert InOrder(Box(b), 0);
    assert DropsWhenFull(b.trace, 0) && QueuedItemsSince(b.trace, 0) == HandedSince(b.trace, 0) == [];
    hide Contents, InOrder, Hands, QueuesConfirmed, SentSince, Balanced, DropsWhenFull, QueuedItemsSince, HandedSince;
    DrainedInv(b);
  }

  /** A client that just turned idle, once its queue is drained. */
  lemma DrainedInv(b: Client)
    requires CONNECT_TOKEN_EXPIRED <= b.state <= DISCONNECTED && b.sequence == 0 && !b.loopback && !b.shouldDisconnect
    requires Conserves(b) && InOrder(Box(b), 0) && |b.queue.slots| == PACKET_QUEUE_SIZE && DropsWhenFull(b.trace, 0)
    requires QueuedItemsSince(b.trace, 0) == HandedSince(b.trace, 0)
    requires QueuesConfirmed(b.trace) && SentSince(b.trace, 0) == []
    ensures var r := WithBox(b, Drain(Box(b), 0));
            Inv(r) && LiveChanges(r.trace) == LiveChanges(b.trace)
  {
    DrainLedger(Box(b), 0);
    DrainOrder(Box(b), 0);
    DrainHands(Box(b), 0);
    DrainElsewhere(Box(b), 0, 0);
    var r := WithBox(b, Drain(Box(b), 0));
    assert Contents(r.queue) == [];
    hide Drain, Contents, Balanced, InOrder, Hands, SentSince, QueuedSince, LiveChanges, QueuesConfirmed, Challenged,
         Confirmed, AlreadyReceived, DistinctBelow63;
    assert Aimed(r) && Conserves(r) && KeepsOrder(r);
    assert DeliversOnce(r) && Counts(r) && Handshakes(r);
  }

  // ----- sending -----

  lemma SendInv(c: Client, p: Packet)
    requires Inv(c)
    requires c.state > DISCONNECTED
    ensures Inv(SendToServer(c, p))
    ensures LiveChanges(SendToServer(c, p).trace) == LiveChanges(c.trace)
  {
    SendDelivers(c, p);
    NextCount(0, SentSince(c.trace, 0), c.sequence);
    var d := SendToServer(c, p);
    assert SentSince(d.trace, 0) == SentSince(c.trace, 0) + [c.sequence];
    hide Contents, KeepsOrder, DeliversOnce, CountsFrom, Balanced;
  }

  lemma SendDelivers(c: Client, p: Packet)
    requires KeepsOrder(c) && DeliversOnce(c)
    ensures KeepsOrder(SendToServer(c, p)) && DeliversOnce(SendToServer(c, p))
  {
    hide Contents, AlreadyReceived, DistinctBelow63;
  }

  lemma {:induction false} SendDisconnectsInv(c: Client, n: nat)
    requires Inv(c) && c.state > DISCONNECTED
    ensures Inv(SendDisconnects(c, n)) && SendDisconnects(c, n).state == c.state
    ensures LiveChanges(SendDisconnects(c, n).trace) == LiveChanges(c.trace)
    ensures SendDisconnects(c, n).time == c.time
    decreases n
  {
    hide Inv;
    if n > 0 {
      SendInv(c, Disconnect);
      SendDisconnectsInv(SendToServer(c, Disconnect), n - 1);
    }
  }

  lemma DisconnectInv(c: Client, destination: int, sendPackets: bool)
    requires Inv(c) && CONNECT_TOKEN_EXPIRED <= destination <= DISCONNECTED
    ensures var d := DisconnectInternal(c, destination, sendPackets);
            && Inv(d) && d.state <= DISCONNECTED && d.time == c.time
            && LiveChanges(d.trace) == LiveChanges(c.trace)
            && (c.state > DISCONNECTED ==> d.state == destination)
  {
    hide ResetConnectionData, SendDisconnects;
    if c.state > DISCONNECTED {
      if sendPackets {
        SendDisconnectsInv(c, NUM_DISCONNECT_PACKETS);
        ResetInv(SendDisconnects(c, NUM_DISCONNECT_PACKETS), destination);
      } else {
        ResetInv(c, destination);
      }
    }
  }

  // ----- aiming at a server -----

  /** Entering the request state for a server of a well-formed token. */
  lemma AimInv(c: Client, t: ConnectToken, index: nat)
    requires Inv(c) && !c.loopback && t.WellFormed() && index < |t.servers|
    ensures var d := SetState(ResetBeforeNextConnect(
                       c.(token := t, serverIndex := index, serverAddress := t.servers[index],
                          readKey := t.serverToClientKey, writeKey := t.clientToServerKey)), SENDING_REQUEST);
            && Inv(d) && Live(d) && d.time == c.time && !d.shouldDisconnect
            && LiveChanges(d.trace) == LiveChanges(c.trace) + 1
  {
    hide Contents, AlreadyReceived;
  }

  lemma ConnectInv(c: Client, tokenData: bytes)
    requires Inv(c) && !c.loopback
    ensures Inv(ConnectWith(c, tokenData)) && !ConnectWith(c, tokenData).shouldDisconnect
  {
    hide DisconnectInternal, ReadConnect, Contents, AlreadyReceived;
    DisconnectInv(c, DISCONNECTED, true);
    var idle := DisconnectInternal(c, DISCONNECTED, true);
    assert !idle.loopback;
    if ReadConnect(tokenData).Some? {
      AimInv(idle, ReadConnect(tokenData).value, 0);
    }
  }

  lemma NextServerInv(c: Client)
    requires Inv(c) && Live(c)
    ensures var (moved, d) := ConnectToNextServer(c);
            && Inv(d) && (moved ==> Live(d) && !d.shouldDisconnect && d.time == c.time)
            && (!moved ==> d == c)
  {
    if c.serverIndex + 1 < |c.token.servers| {
      AimInv(c, c.token, c.serverIndex + 1);
    }
  }

  // ----- receiving -----

  /** The window may move between packets; what was refused stays refused. */
  lemma WindowInv(c: Client, q: uint64)
    requires Inv(c)
    ensures Inv(c.(window := AlreadyReceived(c.window, q).1))
  {
    hide AlreadyReceived, Contents;
    var w := AlreadyReceived(c.window, q).1;
    if Live(c) {
      forall s | s in QueuedSince(c.trace, 0) && s < TWO63
        ensures AlreadyReceived(w, s).0
      {
        RefusalLasts(c.window, s, q);
      }
    }
  }

  lemma SeenInv(c: Client, from: Address, p: Packet, q: uint64)
    requires Inv(c)
    ensures Inv(c.(trace := Then(c.trace, Processed(from, p, q, Some(c.readKey)))))
  {
    hide AlreadyReceived, Contents, Balanced;
  }

  /** Allocating a packet and freeing it again. */
  lemma SpendInv(c: Client)
    requires Inv(c)
    ensures Inv(c.(memory := Free(Alloc(c.memory).1, c.memory.next)))
  {
    hide AlreadyReceived, Contents, Balanced;
    SpendBalanced(c.memory, Ids(Contents(c.queue)));
  }

  lemma ProcessDeniedInv(c: Client, from: Address)
    requires Inv(c)
    ensures Inv(ProcessDenied(c, from))
  {
    hide AlreadyReceived, Contents;
  }

  lemma ProcessChallengeInv(c: Client, from: Address, n: uint64, data: ChallengeData)
    requires Inv(c) && !c.loopback && c.trace.Then? && IsChallengeFrom(c.trace.last, from)
    ensures Inv(ProcessChallenge(c, from, n, data))
  {
    hide AlreadyReceived, Contents, Balanced;
    assert Challenged(c.trace, from);
    var d := ProcessChallenge(c, from, n, data);
    assert KeepsOrder(d);
    assert DeliversOnce(d);
    assert Counts(d);
    assert Handshakes(d);
  }

  lemma ProcessKeepAliveInv(c: Client, from: Address, index: int32, max: int32)
    requires Inv(c) && !c.loopback && c.trace.Then? && IsKeepAliveFrom(c.trace.last, from)
    ensures Inv(ProcessKeepAlive(c, from, index, max))
  {
    hide AlreadyReceived, Contents, Balanced;
    assert Live(c) && c.state == SENDING_RESPONSE && from == c.serverAddress ==> Confirmed(c.trace, from);
    var d := ProcessKeepAlive(c, from, index, max);
    assert KeepsOrder(d);
    assert DeliversOnce(d);
    assert Counts(d);
    assert Handshakes(d);
  }

  lemma ProcessDisconnectInv(c: Client, from: Address)
    requires Inv(c) && !c.loopback
    ensures Inv(ProcessDisconnect(c, from))
  {
    hide AlreadyReceived, Contents;
  }

  lemma DistinctAppend(s: seq<uint64>, q: uint64)
    ensures DistinctBelow63(s) && (q < TWO63 ==> q !in s) ==> DistinctBelow63(s + [q])
  {
  }

  /** A payload enters the queue, or is freed when the queue is full. */
  lemma EnqueueKeeps(c: Client, from: Address, data: bytes, q: uint64)
    requires Conserves(c) && KeepsOrder(c)
    ensures var (id, memory) := Alloc(c.memory);
            var d := WithBox(c, Enqueue(Inbox(c.queue, memory, c.trace), 0, from, Item(id, data, q)));
            Conserves(d) && KeepsOrder(d)
  {
    hide Contents, Enqueue, Balanced, Hands, InOrder;
    var (id, memory) := Alloc(c.memory);
    var b := Inbox(c.queue, memory, c.trace);
    EnqueueBalanced(Box(c), 0, from, data, q);
    OrderAnyLedger(Box(c), memory, 0);
    EnqueueOrder(b, 0, from, Item(id, data, q));
    EnqueueHands(b, 0, from, Item(id, data, q));
  }

  lemma OrderAnyLedger(b: Inbox, m: Ledger, slot: int)
    ensures InOrder(b, slot) <==> InOrder(b.(memory := m), slot)
    ensures Hands(b, slot) <==> Hands(b.(memory := m), slot)
  {
    hide Contents;
  }

  lemma EnqueueInv(c: Client, from: Address, data: bytes, q: uint64)
    requires Inv(c) && c.state == CONNECTED
    requires from == NoAddress || (Live(c) && from == c.serverAddress && CarriesLastPayload(c.trace, from, Item(c.memory.next, data, q)))
    requires Live(c) && q < TWO63 ==> AlreadyReceived(c.window, q).0 && q !in QueuedSince(c.trace, 0)
    ensures var (id, memory) := Alloc(c.memory);
            var d := WithBox(c, Enqueue(Inbox(c.queue, memory, c.trace), 0, from, Item(id, data, q)));
            && Inv(d)
            && LiveChanges(d.trace) == LiveChanges(c.trace)
  {
    EnqueueKeeps(c, from, data, q);
    var (id, memory) := Alloc(c.memory);
    var b := Inbox(c.queue, memory, c.trace);
    EnqueueEffect(b, 0, from, Item(id, data, q));
    hide Contents, Enqueue, Conserves, KeepsOrder, AlreadyReceived, Inv;
    QueueEffectInv(c, WithBox(c, Enqueue(b, 0, from, Item(id, data, q))), from, Item(id, data, q));
  }

  lemma QueueEffectInv(c: Client, d: Client, from: Address, item: Item)
    requires Inv(c) && c.state == CONNECTED
    requires from == NoAddress || (Live(c) && from == c.serverAddress && CarriesLastPayload(c.trace, from, item))
    requires Live(c) && item.sequence < TWO63 ==>
               AlreadyReceived(c.window, item.sequence).0 && item.sequence !in QueuedSince(c.trace, 0)
    requires d == c.(queue := d.queue, memory := d.memory, trace := d.trace) && Conserves(d) && KeepsOrder(d)
    requires d.trace == Then(c.trace, Queued(0, from, item)) || d.trace == Then(c.trace, Dropped(0, item))
    ensures Inv(d) && LiveChanges(d.trace) == LiveChanges(c.trace)
  {
    hide AlreadyReceived, Contents, Conserves, KeepsOrder;
    DistinctAppend(QueuedSince(c.trace, 0), item.sequence);
    assert Aimed(d);
    assert DeliversOnce(d);
    assert Counts(d);
    assert Handshakes(d);
  }

  lemma HandleInv(c: Client, from: Address, p: Packet)
    requires Inv(c) && !c.loopback && c.trace.Then? && c.trace.last.Processed?
    requires c.trace.last.from == from && c.trace.last.packet == p
    ensures Inv(Handle(c, from, p))
  {
    hide Inv;
    match p
    case Denied => ProcessDeniedInv(c, from);
    case Challenge(n, data) => ProcessChallengeInv(c, from, n, data);
    case KeepAlive(index, max) => ProcessKeepAliveInv(c, from, index, max);
    case Disconnect => ProcessDisconnectInv(c, from);
    case _ =>
  }

  /** Handling a packet leaves the ledger, the clock, the mode and the queue alone. */
  lemma HandleKeeps(c: Client, from: Address, p: Packet)
    ensures var d := Handle(c, from, p);
            d.memory == c.memory && d.time == c.time && d.loopback == c.loopback && d.queue == c.queue
  {
  }

  /** Nor does it look at the ledger. */
  lemma HandleAnyLedger(c: Client, m: Ledger, from: Address, p: Packet)
    ensures Handle(c.(memory := m), from, p) == Handle(c, from, p).(memory := m)
  {
    match p
    case Denied => assert ProcessDenied(c.(memory := m), from) == ProcessDenied(c, from).(memory := m);
    case Challenge(n, data) => ChallengeAnyLedger(c, m, from, n, data);
    case KeepAlive(index, max) => KeepAliveAnyLedger(c, m, from, index, max);
    case Disconnect => assert ProcessDisconnect(c.(memory := m), from) == ProcessDisconnect(c, from).(memory := m);
    case _ =>
  }

  lemma ChallengeAnyLedger(c: Client, m: Ledger, from: Address, n: uint64, data: ChallengeData)
    ensures ProcessChallenge(c.(memory := m), from, n, data) == ProcessChallenge(c, from, n, data).(memory := m)
  {
  }

  lemma KeepAliveAnyLedger(c: Client, m: Ledger, from: Address, index: int32, max: int32)
    ensures ProcessKeepAlive(c.(memory := m), from, index, max) == ProcessKeepAlive(c, from, index, max).(memory := m)
  {
  }

  lemma ProcessPacketInv(c: Client, from: Address, p: Packet, q: uint64)
    requires Inv(c) && !c.loopback
    requires p.Payload? && Live(c) && q < TWO63 ==>
               AlreadyReceived(c.window, q).0 && q !in QueuedSince(c.trace, 0)
    ensures Inv(Deliver(c, from, Some((p, q))))
  {
    hide AlreadyReceived, Contents, Inv, Enqueue, Handle;
    SeenInv(c, from, p, q);
    var seen := c.(trace := Then(c.trace, Processed(from, p, q, Some(c.readKey))));
    if p.Payload? && c.state == CONNECTED && SameAddress(from, c.serverAddress) {
      EnqueueInv(seen, from, p.data, q);
      LastReceiveInv(Deliver(c, from, Some((p, q))), c.lastReceive);
    } else {
      HandleInv(seen, from, p);
      HandleKeeps(seen, from, p);
      HandleAnyLedger(seen, Alloc(c.memory).1, from, p);
      SpendInv(Handle(seen, from, p));
    }
  }

  /** The deadline clock is no part of the invariant. */
  lemma LastReceiveInv(c: Client, t: real)
    ensures Inv(c) <==> Inv(c.(lastReceive := t))
  {
    hide AlreadyReceived, Contents;
  }

  lemma DeliverKeepsMode(c: Client, from: Address, reading: Reading)
    ensures Deliver(c, from, reading).loopback == c.loopback && Deliver(c, from, reading).time == c.time
  {
    hide Enqueue, Handle;
    if reading.Some? {
      var (p, q) := reading.value;
      HandleKeeps(c.(memory := Alloc(c.memory).1, trace := Then(c.trace, Processed(from, p, q, Some(c.readKey)))), from, p);
    }
  }

  lemma ReceiveInv(a: Aead, c: Client, d: Datagram, now: uint64)
    requires Inv(c) && !c.loopback
    ensures Inv(Receive(a, c, d, now)) && !Receive(a, c, d, now).loopback
    ensures Receive(a, c, d, now).time == c.time
  {
    hide AlreadyReceived, Contents, Inv, ReadPacket, Deliver;
    var (reading, moved) := ReadPacket(a, d.data, Some(c.readKey), c.token.protocolId, now, None, ALLOWED, Some(c.window));
    ReadMovesWindow(a, d.data, Some(c.readKey), c.token.protocolId, now, None, ALLOWED, c.window);
    var m := c.(window := moved.value);
    if moved != Some(c.window) {
      var q: uint64 :| moved == Some(AlreadyReceived(c.window, q).1);
      WindowInv(c, q);
    }
    DeliverKeepsMode(m, d.from, reading);
    if reading.Some? {
      PassedIsNew(c, reading.value.0, reading.value.1, m);
      ProcessPacketInv(m, d.from, reading.value.0, reading.value.1);
    } else {
      assert Deliver(m, d.from, reading) == m by {
        DeliverNothing(m, d.from);
      }
    }
  }

  lemma DeliverNothing(c: Client, from: Address)
    ensures Deliver(c, from, None) == c
  {
  }

  /** A payload that passed the window is new to this attempt, and the moved window knows it. */
  lemma PassedIsNew(c: Client, p: Packet, q: uint64, m: Client)
    requires Inv(c)
    requires TypeOf(p) >= KEEP_ALIVE ==>
               !AlreadyReceived(c.window, q).0 && m == c.(window := AlreadyReceived(c.window, q).1)
    ensures p.Payload? && Live(c) && q < TWO63 ==>
              AlreadyReceived(m.window, q).0 && q !in QueuedSince(c.trace, 0)
  {
    hide AlreadyReceived, Contents;
    if p.Payload? && q < TWO63 {
      PassingIsRemembered(c.window, q);
    }
  }

  lemma {:induction false} ReceiveAllInv(a: Aead, c: Client, ds: seq<Datagram>, now: uint64)
    requires Inv(c) && !c.loopback
    ensures var r := ReceiveAll(a, c, ds, now); Inv(r) && !r.loopback && r.time == c.time
    decreases |ds|
  {
    hide Inv, Receive;
    if ds != [] {
      ReceiveInv(a, c, ds[0], now);
      ReceiveAllInv(a, Receive(a, c, ds[0], now), ds[1..], now);
    }
  }

  lemma SendPacketsInv(c: Client)
    requires Inv(c) && !c.loopback
    ensures var r := SendPackets(c);
            && Inv(r) && r == c.(sequence := r.sequence, lastSend := r.lastSend, trace := r.trace)
            && LiveChanges(r.trace) == LiveChanges(c.trace)
  {
    hide Inv;
    if c.state == SENDING_REQUEST {
      SendInv(c, RequestPacket(c));
    } else if c.state == SENDING_RESPONSE {
      SendInv(c, Response(c.challengeSequence, c.challengeData));
    } else if c.state == CONNECTED {
      SendInv(c, KeepAlive(0, 0));
    }
  }

  // ----- deadlines -----

  /** What holds whenever an update returns in a live state. */
  ghost predicate WithinDeadlines(c: Client) {
    Live(c) ==>
      && !c.shouldDisconnect
      && (c.token.timeoutSeconds > 0 ==> c.time <= c.lastReceive + c.token.timeoutSeconds as real)
      && (c.state < CONNECTED && c.token.expireTimestamp > c.token.createTimestamp ==>
            c.time < c.connectStart + (c.token.expireTimestamp - c.token.createTimestamp) as real)
  }

  lemma FailOverInv(c: Client, state: int)
    requires Inv(c) && Live(c) && CONNECT_TOKEN_EXPIRED < state <= DISCONNECTED
    ensures Inv(FailOver(c, state)) && WithinDeadlines(FailOver(c, state)) && !FailOver(c, state).loopback
    ensures !FailOver(c, state).shouldDisconnect && FailOver(c, state).time == c.time
  {
    hide Inv, ResetConnectionData;
    NextServerInv(c);
    DisconnectInv(c, state, false);
    AimedFacts(FailOver(c, state));
  }

  lemma AimedFacts(c: Client)
    requires Inv(c)
    ensures Aimed(c)
  {
  }

  lemma CheckDeadlinesInv(c: Client)
    requires Inv(c) && !c.loopback
    ensures var r := CheckDeadlines(c);
            Inv(r) && WithinDeadlines(r) && !r.shouldDisconnect && !r.loopback && r.time == c.time
  {
    hide Inv, FailOver, ResetConnectionData;
    AimedFacts(c);
    DisconnectInv(c, CONNECT_TOKEN_EXPIRED, false);
    DisconnectInv(c, CONNECTION_TIMED_OUT, false);
    AimedFacts(DisconnectInternal(c, CONNECT_TOKEN_EXPIRED, false));
    AimedFacts(DisconnectInternal(c, CONNECTION_TIMED_OUT, false));
    if Live(c) {
      if c.shouldDisconnect {
        FailOverInv(c, c.shouldDisconnectState);
      }
      FailOverInv(c, REQUEST_TIMED_OUT);
      FailOverInv(c, RESPONSE_TIMED_OUT);
    }
  }

  lemma TimeInv(c: Client, time: real)
    ensures Inv(c.(time := time)) <==> Inv(c)
  {
    hide AlreadyReceived, Contents;
  }

  lemma UpdateInv(a: Aead, c: Client, time: real, ds: seq<Datagram>, now: uint64)
    requires Inv(c)
    ensures var r := Update(a, c, time, ds, now);
            Inv(r) && WithinDeadlines(r) && !r.shouldDisconnect && r.time == time
  {
    hide Inv, ReceiveAll, SendPackets, CheckDeadlines;
    TimeInv(c, time);
    AimedFacts(c);
    if !c.loopback {
      var ticked := c.(time := time);
      ReceiveAllInv(a, ticked, ds, now);
      var received := ReceiveAll(a, ticked, ds, now);
      SendPacketsInv(received);
      CheckDeadlinesInv(SendPackets(received));
    }
  }

  // ----- the application's calls -----

  lemma SendPayloadInv(c: Client, data: bytes)
    requires Inv(c)
    ensures Inv(SendPayload(c, data)) && SendPayload(c, data).shouldDisconnect == c.shouldDisconnect
  {
    hide Contents, AlreadyReceived, Balanced, Inc64;
    if c.state == CONNECTED {
      SendInv(c, Payload(data));
      NextCount(0, SentSince(c.trace, 0), c.sequence);
    }
  }

  lemma ReceivePayloadFrame(c: Client)
    ensures var d := ReceivePayload(c).1;
            && d == c.(queue := d.queue, memory := d.memory, trace := d.trace)
            && (d == c || (d.trace.Then? && d.trace.past == c.trace && d.trace.last.Handed?))
            && (Contents(c.queue) == [] ==> d == c)
  {
  }

  lemma ReceivePayloadInv(c: Client)
    requires Inv(c)
    ensures Inv(ReceivePayload(c).1) && ReceivePayload(c).1.shouldDisconnect == c.shouldDisconnect
  {
    ReceivePayloadKeeps(c);
    ReceivePayloadFrame(c);
    hide ReceivePayload, Contents, Inv;
    if ReceivePayload(c).1 != c {
      HandedInv(c, ReceivePayload(c).1);
    }
  }

  lemma HandedInv(c: Client, d: Client)
    requires Inv(c) && Conserves(d) && KeepsOrder(d) && d == c.(queue := d.queue, memory := d.memory, trace := d.trace)
    requires d.trace.Then? && d.trace.past == c.trace && d.trace.last.Handed? && Contents(c.queue) != []
    ensures Inv(d)
  {
    hide Contents, Conserves, KeepsOrder, AlreadyReceived, DistinctBelow63;
    assert QueuedSince(d.trace, 0) == QueuedSince(c.trace, 0) && SentSince(d.trace, 0) == SentSince(c.trace, 0);
  }

  lemma ReceivePayloadKeeps(c: Client)
    requires Inv(c)
    ensures Conserves(ReceivePayload(c).1) && KeepsOrder(ReceivePayload(c).1)
  {
    DequeueLedger(Box(c), 0);
    DequeueOrder(Box(c), 0);
    DequeueHands(Box(c), 0);
    hide Contents, Dequeue, Hands, InOrder, Balanced;
  }

  lemma LoopbackInv(c: Client, index: int32, max: int32)
    requires Inv(c) && c.state <= DISCONNECTED
    ensures Inv(ConnectLoopback(c, index, max))
  {
    hide Contents, AlreadyReceived;
  }

  lemma StepInv(a: Aead, c: Client, e: Event)
    requires Inv(c) && Enabled(c, e) && !c.shouldDisconnect
    ensures Inv(Step(a, c, e)) && !Step(a, c, e).shouldDisconnect
  {
    hide Inv, ConnectWith, Update, SendPayload, ReceivePayload, DisconnectInternal, ResetConnectionData, Enqueue;
    match e
    case ConnectEvent(tokenData) => ConnectInv(c, tokenData);
    case UpdateEvent(time, datagrams, now) => UpdateInv(a, c, time, datagrams, now);
    case SendEvent(data) => SendPayloadInv(c, data);
    case ReceiveEvent => ReceivePayloadInv(c);
    case FreeEvent(id) => FreeInv(c, id);
    case DisconnectEvent => DisconnectEventInv(c);
    case ConnectLoopbackEvent(index, max) => LoopbackInv(c, index, max);
    case DisconnectLoopbackEvent => DisconnectLoopbackInv(c);
    case LoopbackPacketEvent(data, sequence) => LoopbackPacketInv(c, data, sequence);
  }

  lemma FreeInv(c: Client, id: nat)
    requires Inv(c) && id in c.memory.held
    ensures Inv(c.(memory := GiveBack(c.memory, id)))
  {
    hide Contents, AlreadyReceived, Balanced;
    GiveBackBalanced(c.memory, Ids(Contents(c.queue)), id);
  }

  lemma DisconnectEventInv(c: Client)
    requires Inv(c) && !c.loopback && !c.shouldDisconnect
    ensures Inv(DisconnectInternal(c, DISCONNECTED, true))
    ensures !DisconnectInternal(c, DISCONNECTED, true).shouldDisconnect
  {
    hide DisconnectInternal;
    DisconnectInv(c, DISCONNECTED, true);
    AimedFacts(DisconnectInternal(c, DISCONNECTED, true));
  }

  lemma DisconnectLoopbackInv(c: Client)
    requires Inv(c)
    ensures Inv(ResetConnectionData(c, DISCONNECTED)) && !ResetConnectionData(c, DISCONNECTED).shouldDisconnect
  {
    hide ResetConnectionData;
    ResetInv(c, DISCONNECTED);
  }

  lemma LoopbackPacketInv(c: Client, data: bytes, sequence: uint64)
    requires Inv(c) && c.loopback
    ensures Inv(ProcessLoopback(c, data, sequence))
    ensures ProcessLoopback(c, data, sequence).shouldDisconnect == c.shouldDisconnect
  {
    hide Enqueue;
    EnqueueInv(c, NoAddress, data, sequence);
  }

  /** Every run of a new client keeps the invariant. */
  lemma {:induction false} RunInv(a: Aead, c: Client, es: seq<Event>)
    requires Inv(c) && !c.shouldDisconnect && EnabledRun(a, c, es)
    ensures Inv(Run(a, c, es))
    decreases |es|
  {
    hide Inv, Step;
    if es != [] {
      StepInv(a, c, es[0]);
      RunInv(a, Step(a, c, es[0]), es[1..]);
    }
  }
}
