/** The main results about the client, over every run from its creation. */
module ClientTheorems {
  import opened Types
  import opened Crypto
  import opened Tokens
  import opened Packets
  import opened Replay
  import opened Queue
  import opened Traces
  import opened Memory
  import opened Inbox
  import opened Client
  import opened ClientRuns

  /** A live client is aimed at the server its index names. It is connected only after it
      processed, since it last turned to this server, a challenge and then a keep-alive from that
      server's address; and each payload ever queued had such a handshake with its sender before it. */
  lemma ConnectedOnlyAfterHandshake(a: Aead, start: real, es: seq<Event>)
    requires EnabledRun(a, Create(start), es)
    ensures var c := Run(a, Create(start), es);
            && (Live(c) ==> c.serverIndex < |c.token.servers| && c.serverAddress == c.token.servers[c.serverIndex])
            && (Live(c) && c.state == SENDING_RESPONSE ==> Challenged(c.trace, c.serverAddress))
            && (Live(c) && c.state == CONNECTED ==> Confirmed(c.trace, c.serverAddress))
            && QueuesConfirmed(c.trace)
  {
    hide Run, EnabledRun;
    CreateInv(start);
    RunInv(a, Create(start), es);
  }

  /** Exactly once and in order: within the connection, what was queued is what the application
      took followed by what is in the queue, so what it took is a prefix of what was queued, and a
      payload is dropped only when the queue is full.  Within the attempt no sequence below 2^63 is
      queued twice, and none is handed to the application twice.  Over the whole run, what was
      queued is what was taken or discarded, in order, followed by what is in the queue. */
  lemma DeliversInOrderOnce(a: Aead, start: real, es: seq<Event>)
    requires EnabledRun(a, Create(start), es)
    ensures var c := Run(a, Create(start), es);
            var queued := QueuedItemsSince(c.trace, 0);
            var attempt := AttemptItems(c.trace, 0);
            && queued == HandedSince(c.trace, 0) + Contents(c.queue)
            && HandedSince(c.trace, 0) <= queued
            && DropsWhenFull(c.trace, 0)
            && |attempt| <= |queued| && queued[|queued| - |attempt|..] == attempt
            && (Live(c) ==> OnceFrom(attempt, 0) && OnceFrom(HandedSince(c.trace, 0), |queued| - |attempt|))
            && QueuedItems(c.trace, 0) == LeftItems(c.trace, 0) + Contents(c.queue)
  {
    hide Run, EnabledRun;
    CreateInv(start);
    RunInv(a, Create(start), es);
    var c := Run(a, Create(start), es);
    AttemptIsSuffix(c.trace, 0);
    QueuedSinceAttempt(c.trace, 0);
    if Live(c) {
      HandedOnce(c.trace, 0, Contents(c.queue));
    }
  }

  /** Each allocated packet is in the queue, with the application or freed, once. */
  lemma PacketsConserved(a: Aead, start: real, es: seq<Event>, id: nat)
    requires EnabledRun(a, Create(start), es)
    ensures var c := Run(a, Create(start), es);
            Ids(Contents(c.queue))[id] + c.memory.held[id] + c.memory.freed[id]
            == if id < c.memory.next then 1 else 0
  {
    hide Run, EnabledRun;
    CreateInv(start);
    RunInv(a, Create(start), es);
    EachInOnePlace(Run(a, Create(start), es).memory, Ids(Contents(Run(a, Create(start), es).queue)), id);
  }

  /** From connect until the client is idle again, across all its failovers, the sequences it
      consumes are 0, 1, 2, ... */
  lemma SequencesCountUp(a: Aead, start: real, es: seq<Event>, k: nat)
    requires EnabledRun(a, Create(start), es)
    requires k < |SentSince(Run(a, Create(start), es).trace, 0)| < TWO64
    ensures SentSince(Run(a, Create(start), es).trace, 0)[k] == k
    ensures Run(a, Create(start), es).sequence == |SentSince(Run(a, Create(start), es).trace, 0)|
  {
    hide Run, EnabledRun, SentSince;
    CreateInv(start);
    RunInv(a, Create(start), es);
  }

  /** Whenever an update returns in a live state, no disconnect is pending, the server was heard
      within the timeout, and a connection under way is within the token's lifetime. */
  lemma DeadlinesHoldOnReturn(a: Aead, start: real, es: seq<Event>, time: real, ds: seq<Datagram>, now: uint64)
    requires EnabledRun(a, Create(start), es)
    ensures WithinDeadlines(Update(a, Run(a, Create(start), es), time, ds, now))
  {
    hide Run, EnabledRun, Update;
    CreateInv(start);
    RunInv(a, Create(start), es);
    UpdateInv(a, Run(a, Create(start), es), time, ds, now);
  }

  // ----- a bound on the number of state changes -----

  /** 3 * (servers left) - state, and 0 once the client has settled. */
  function Measure(c: Client): int {
    if Live(c) then 3 * (|c.token.servers| - c.serverIndex) - c.state else 0
  }

  /** State changes made so far plus those still possible. */
  function Budget(c: Client): int {
    LiveChanges(c.trace) + Measure(c)
  }

  lemma MeasureNonNegative(c: Client)
    requires Aimed(c)
    ensures Measure(c) >= 0
    ensures Live(c) && c.serverIndex == 0 && c.state == SENDING_REQUEST ==> Measure(c) == 3 * |c.token.servers| - 1
  {
  }

  lemma ProcessChallengeBudget(c: Client, from: Address, n: uint64, data: ChallengeData)
    requires !c.loopback
    ensures Budget(ProcessChallenge(c, from, n, data)) <= Budget(c)
  {
  }

  lemma ProcessKeepAliveBudget(c: Client, from: Address, index: int32, max: int32)
    requires !c.loopback
    ensures Budget(ProcessKeepAlive(c, from, index, max)) <= Budget(c)
  {
  }

  lemma SeenBudget(c: Client, m: Ledger, e: Effect)
    requires e.Processed?
    ensures Budget(c.(memory := m, trace := Then(c.trace, e))) == Budget(c)
  {
  }

  lemma SpendBudget(c: Client, m: Ledger)
    ensures Budget(c.(memory := m)) == Budget(c)
  {
  }

  lemma EnqueueBudget(c: Client, from: Address, item: Item, m: Ledger)
    ensures var b := Enqueue(Inbox(c.queue, m, c.trace), 0, from, item);
            Budget(WithBox(c, b).(lastReceive := c.time)) == Budget(c)
  {
  }

  lemma HandleBudget(c: Client, from: Address, p: Packet)
    requires !c.loopback
    ensures Budget(Handle(c, from, p)) <= Budget(c)
  {
    hide Budget, ProcessDenied, ProcessChallenge, ProcessKeepAlive, ProcessDisconnect;
    match p
    case Challenge(n, data) => ProcessChallengeBudget(c, from, n, data);
    case KeepAlive(index, max) => ProcessKeepAliveBudget(c, from, index, max);
    case Denied => ProcessFlagBudget(c, from);
    case Disconnect => ProcessFlagBudget(c, from);
    case _ =>
  }

  lemma ProcessBudget(c: Client, from: Address, reading: Reading)
    requires !c.loopback
    ensures Budget(Deliver(c, from, reading)) <= Budget(c)
  {
    hide Budget, Enqueue, Handle;
    if reading.Some? {
      var (p, q) := reading.value;
      var (id, memory) := Alloc(c.memory);
      var e := Processed(from, p, q, Some(c.readKey));
      var seen := c.(memory := memory, trace := Then(c.trace, e));
      SeenBudget(c, memory, e);
      if p.Payload? && c.state == CONNECTED && SameAddress(from, c.serverAddress) {
        EnqueueBudget(seen, from, Item(id, p.data, q), memory);
      } else {
        HandleBudget(seen, from, p);
        SpendBudget(Handle(seen, from, p), Free(Handle(seen, from, p).memory, id));
      }
    }
  }

  lemma ProcessFlagBudget(c: Client, from: Address)
    ensures Budget(ProcessDenied(c, from)) == Budget(c) && Budget(ProcessDisconnect(c, from)) == Budget(c)
  {
  }

  lemma {:induction false} ReceiveAllBudget(a: Aead, c: Client, ds: seq<Datagram>, now: uint64)
    requires !c.loopback
    ensures Budget(ReceiveAll(a, c, ds, now)) <= Budget(c)
    decreases |ds|
  {
    hide Budget, ReadPacket;
    if ds != [] {
      var (reading, moved) :=
        ReadPacket(a, ds[0].data, Some(c.readKey), c.token.protocolId, now, None, ALLOWED, Some(c.window));
      WindowBudget(c, moved.value);
      ProcessBudget(c.(window := moved.value), ds[0].from, reading);
      DeliverKeepsMode(c.(window := moved.value), ds[0].from, reading);
      ReceiveAllBudget(a, Receive(a, c, ds[0], now), ds[1..], now);
    }
  }

  lemma WindowBudget(c: Client, w: Window)
    ensures Budget(c.(window := w)) == Budget(c)
  {
  }

  lemma DisconnectBudget(c: Client, destination: int, sendPackets: bool)
    requires Inv(c) && CONNECT_TOKEN_EXPIRED <= destination <= DISCONNECTED
    ensures Budget(DisconnectInternal(c, destination, sendPackets)) <= Budget(c)
  {
    hide DisconnectInternal, LiveChanges;
    DisconnectInv(c, destination, sendPackets);
    AimedFacts(c);
    MeasureNonNegative(c);
  }

  lemma NextServerBudget(c: Client)
    requires Aimed(c) && Live(c)
    ensures Budget(ConnectToNextServer(c).1) <= Budget(c)
  {
  }

  lemma FailOverBudget(c: Client, state: int)
    requires Inv(c) && Live(c) && CONNECT_TOKEN_EXPIRED <= state <= DISCONNECTED
    ensures Budget(FailOver(c, state)) <= Budget(c)
  {
    hide DisconnectInternal, Budget;
    AimedFacts(c);
    NextServerBudget(c);
    DisconnectBudget(c, state, false);
  }

  lemma CheckDeadlinesBudget(c: Client)
    requires Inv(c) && !c.loopback
    ensures Budget(CheckDeadlines(c)) <= Budget(c)
  {
    hide Inv, FailOver, DisconnectInternal, Budget;
    AimedFacts(c);
    DisconnectBudget(c, CONNECT_TOKEN_EXPIRED, false);
    DisconnectBudget(c, CONNECTION_TIMED_OUT, false);
    if Live(c) {
      if c.shouldDisconnect {
        FailOverBudget(c, c.shouldDisconnectState);
      }
      FailOverBudget(c, REQUEST_TIMED_OUT);
      FailOverBudget(c, RESPONSE_TIMED_OUT);
    }
  }

  lemma SendPacketsBudget(c: Client)
    ensures Budget(SendPackets(c)) == Budget(c)
  {
  }

  lemma UpdateBudget(a: Aead, c: Client, time: real, ds: seq<Datagram>, now: uint64)
    requires Inv(c)
    ensures Budget(Update(a, c, time, ds, now)) <= Budget(c)
  {
    hide Inv, ReceiveAll, SendPackets, CheckDeadlines;
    TimeInv(c, time);
    if !c.loopback {
      var ticked := c.(time := time);
      ReceiveAllInv(a, ticked, ds, now);
      ReceiveAllBudget(a, ticked, ds, now);
      var received := ReceiveAll(a, ticked, ds, now);
      SendPacketsInv(received);
      SendPacketsBudget(received);
      CheckDeadlinesBudget(SendPackets(received));
    }
  }

  lemma StepBudget(a: Aead, c: Client, e: Event)
    requires Inv(c) && Enabled(c, e) && !e.ConnectEvent?
    ensures Budget(Step(a, c, e)) <= Budget(c)
  {
    hide Inv, Update, DisconnectInternal, ResetConnectionData, Drain, Enqueue, Dequeue;
    AimedFacts(c);
    MeasureNonNegative(c);
    match e
    case UpdateEvent(time, datagrams, now) => UpdateBudget(a, c, time, datagrams, now);
    case DisconnectEvent => DisconnectBudget(c, DISCONNECTED, true);
    case DisconnectLoopbackEvent => ResetBudget(c);
    case ReceiveEvent =>
      DequeueChanges(Box(c));
      QueueBudget(c, Dequeue(Box(c), 0).1);
    case LoopbackPacketEvent(data, sequence) =>
      var (id, memory) := Alloc(c.memory);
      var b := Enqueue(Inbox(c.queue, memory, c.trace), 0, NoAddress, Item(id, data, sequence));
      EnqueueChanges(Inbox(c.queue, memory, c.trace), Item(id, data, sequence));
      QueueBudget(c, b);
    case _ =>
  }

  lemma ResetBudget(c: Client)
    requires Inv(c)
    ensures Budget(ResetConnectionData(c, DISCONNECTED)) <= Budget(c)
  {
    hide ResetConnectionData;
    ResetInv(c, DISCONNECTED);
    MeasureNonNegative(c);
  }

  lemma QueueBudget(c: Client, b: Inbox)
    requires LiveChanges(b.trace) == LiveChanges(c.trace)
    ensures Budget(WithBox(c, b)) == Budget(c)
  {
  }

  lemma DequeueChanges(b: Inbox)
    ensures LiveChanges(Dequeue(b, 0).1.trace) == LiveChanges(b.trace)
  {
  }

  lemma EnqueueChanges(b: Inbox, item: Item)
    ensures LiveChanges(Enqueue(b, 0, NoAddress, item).trace) == LiveChanges(b.trace)
  {
  }

  ghost predicate NoConnect(es: seq<Event>) {
    forall i :: 0 <= i < |es| ==> !es[i].ConnectEvent?
  }

  /** The budget only falls until the next connect call. */
  lemma {:induction false} RunBudget(a: Aead, c: Client, es: seq<Event>)
    requires Inv(c) && !c.shouldDisconnect && EnabledRun(a, c, es) && NoConnect(es)
    ensures Budget(Run(a, c, es)) <= Budget(c) && Inv(Run(a, c, es))
    decreases |es|
  {
    hide Inv, Step, Budget;
    if es != [] {
      StepInv(a, c, es[0]);
      StepBudget(a, c, es[0]);
      RunBudget(a, Step(a, c, es[0]), es[1..]);
    }
  }

  /** After connect with a token of n servers, a run without further connect calls enters live
      states at most 3n - 1 times more: every such change spends one unit of
      3 * (n - index) - state. */
  lemma BoundedStateChanges(a: Aead, c: Client, tokenData: bytes, es: seq<Event>)
    requires Inv(c) && !c.loopback && ReadConnect(tokenData).Some?
    requires EnabledRun(a, ConnectWith(c, tokenData), es) && NoConnect(es)
    ensures var d := ConnectWith(c, tokenData);
            && Live(d) && d.state == SENDING_REQUEST && d.serverIndex == 0
            && LiveChanges(Run(a, d, es).trace) - LiveChanges(d.trace) <= 3 * |d.token.servers| - 1
  {
    hide Run, EnabledRun, DisconnectInternal, ReadConnect, LiveChanges;
    ConnectInv(c, tokenData);
    var d := ConnectWith(c, tokenData);
    DisconnectInv(c, DISCONNECTED, true);
    RunBudget(a, d, es);
    MeasureNonNegative(d);
    MeasureNonNegative(Run(a, d, es));
  }

  // ----- a bound on the time to settle -----

  /** Updates at the given times with nothing received. */
  function QuietRun(a: Aead, c: Client, times: seq<real>, now: uint64): Client
    decreases |times|
  {
    if times == [] then c else QuietRun(a, Update(a, c, times[0], [], now), times[1..], now)
  }

  /** Each time is at least the one before it and at most `gap` later. */
  ghost predicate Paced(from: real, times: seq<real>, gap: real)
    decreases |times|
  {
    times == [] || (from <= times[0] <= from + gap && Paced(times[0], times[1..], gap))
  }

  /** A quiet update of a live client either leaves the server clock and index alone or turns to
      the next server now. */
  lemma QuietStep(a: Aead, c: Client, time: real, now: uint64)
    requires Inv(c) && Live(c) && !c.shouldDisconnect && c.token.timeoutSeconds > 0
    ensures var d := Update(a, c, time, [], now);
            && Inv(d) && !d.shouldDisconnect && d.time == time && WithinDeadlines(d)
            && (d.state > DISCONNECTED ==>
                  && Live(d) && d.token == c.token
                  && ((d.serverIndex == c.serverIndex && d.lastReceive == c.lastReceive)
                      || (d.serverIndex == c.serverIndex + 1 && d.lastReceive == time)))
  {
    hide Inv, SendPackets, DisconnectInternal;
    UpdateInv(a, c, time, [], now);
    TimeInv(c, time);
    var ticked := c.(time := time);
    assert ReceiveAll(a, ticked, [], now) == ticked;
    SendPacketsInv(ticked);
    var sent := SendPackets(ticked);
    AimedFacts(sent);
    DisconnectInv(sent, CONNECT_TOKEN_EXPIRED, false);
    DisconnectInv(sent, CONNECTION_TIMED_OUT, false);
    DisconnectInv(sent, REQUEST_TIMED_OUT, false);
    DisconnectInv(sent, RESPONSE_TIMED_OUT, false);
  }

  lemma SettledStays(a: Aead, c: Client, time: real, now: uint64)
    requires Inv(c) && c.state <= DISCONNECTED && !c.shouldDisconnect
    ensures Update(a, c, time, [], now).state == c.state
  {
    assert ReceiveAll(a, c.(time := time), [], now) == c.(time := time);
  }

  lemma {:induction false} SettledStaysRun(a: Aead, c: Client, times: seq<real>, now: uint64)
    requires Inv(c) && c.state <= DISCONNECTED && !c.shouldDisconnect
    ensures QuietRun(a, c, times, now).state <= DISCONNECTED
    decreases |times|
  {
    hide Inv, Update;
    if times != [] {
      SettledStays(a, c, times[0], now);
      UpdateInv(a, c, times[0], [], now);
      SettledStaysRun(a, Update(a, c, times[0], [], now), times[1..], now);
    }
  }

  /** With nothing received, a live client that is still live at its last update has spent at most
      (timeout + gap) on each server it gave up. */
  lemma {:induction false} QuietRunBound(a: Aead, c: Client, times: seq<real>, gap: real, now: uint64)
    requires Inv(c) && Live(c) && !c.shouldDisconnect && c.token.timeoutSeconds > 0
    requires c.time <= c.lastReceive + c.token.timeoutSeconds as real
    requires Paced(c.time, times, gap) && gap >= 0.0
    ensures var d := QuietRun(a, c, times, now);
            var perServer := c.token.timeoutSeconds as real + gap;
            d.state > DISCONNECTED ==>
              && Live(d) && d.token == c.token && d.serverIndex < |c.token.servers|
              && d.time <= c.lastReceive + (d.serverIndex - c.serverIndex + 1) as real * perServer
    decreases |times|
  {
    hide Inv, Update;
    AimedFacts(c);
    var perServer := c.token.timeoutSeconds as real + gap;
    if times != [] {
      QuietStep(a, c, times[0], now);
      var d := Update(a, c, times[0], [], now);
      if d.state <= DISCONNECTED {
        SettledStaysRun(a, d, times[1..], now);
      } else {
        QuietRunBound(a, d, times[1..], gap, now);
        var e := QuietRun(a, d, times[1..], now);
        if e.state > DISCONNECTED && d.serverIndex == c.serverIndex + 1 {
          var k := (e.serverIndex - d.serverIndex + 1) as real;
          assert d.lastReceive <= c.lastReceive + perServer;
          assert (e.serverIndex - c.serverIndex + 1) as real == k + 1.0;
          assert (k + 1.0) * perServer == k * perServer + perServer;
        }
      }
    }
  }

  lemma ScaleMonotone(x: real, y: real, z: real)
    requires x <= y && z >= 0.0
    ensures x * z <= y * z
  {
  }

  /** What connecting with a readable token begins. */
  lemma ConnectFacts(c: Client, tokenData: bytes)
    requires Inv(c) && !c.loopback && ReadConnect(tokenData).Some?
    ensures var d := ConnectWith(c, tokenData);
            && Inv(d) && Live(d) && !d.shouldDisconnect && d.state == SENDING_REQUEST && d.serverIndex == 0
            && d.token == ReadConnect(tokenData).value && d.time == c.time
            && d.lastReceive == c.time && d.connectStart == c.time
  {
    ConnectInv(c, tokenData);
    DisconnectInv(c, DISCONNECTED, true);
    hide DisconnectInternal, ReadConnect, Inv;
  }

  /** With nothing received, timeout T > 0 and updates at most d apart, a client that connects with a
      token of n servers is idle at the first update later than n * (T + d) after the connect. */
  lemma SettlesInTime(a: Aead, c: Client, tokenData: bytes, times: seq<real>, gap: real, now: uint64)
    requires Inv(c) && !c.loopback && ReadConnect(tokenData).Some?
    requires ReadConnect(tokenData).value.timeoutSeconds > 0 && Paced(c.time, times, gap) && gap >= 0.0
    requires var t := ReadConnect(tokenData).value;
             QuietRun(a, ConnectWith(c, tokenData), times, now).time
             > c.time + |t.servers| as real * (t.timeoutSeconds as real + gap)
    ensures QuietRun(a, ConnectWith(c, tokenData), times, now).state <= DISCONNECTED
  {
    hide Inv, Update, ConnectWith, ReadConnect;
    ConnectFacts(c, tokenData);
    QuietRunSettles(a, ConnectWith(c, tokenData), times, gap, now);
  }

  lemma QuietRunSettles(a: Aead, c: Client, times: seq<real>, gap: real, now: uint64)
    requires Inv(c) && Live(c) && !c.shouldDisconnect && c.token.timeoutSeconds > 0
    requires c.serverIndex == 0 && c.lastReceive == c.time
    requires Paced(c.time, times, gap) && gap >= 0.0
    requires QuietRun(a, c, times, now).time
             > c.time + |c.token.servers| as real * (c.token.timeoutSeconds as real + gap)
    ensures QuietRun(a, c, times, now).state <= DISCONNECTED
  {
    hide Inv, QuietRun, Update;
    var d := QuietRun(a, c, times, now);
    QuietRunBound(a, c, times, gap, now);
    if d.state > DISCONNECTED {
      assert (d.serverIndex - c.serverIndex + 1) as real == (d.serverIndex + 1) as real;
      ScaleMonotone((d.serverIndex + 1) as real, |c.token.servers| as real, c.token.timeoutSeconds as real + gap);
    }
  }
}
