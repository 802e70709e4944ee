/** Where the packets a client processed came from: each was read from a datagram of the run, and each
    payload queued since the client was last idle was read under the key it has now. */
module ClientReadings {
  import opened Types
  import opened Crypto
  import opened Tokens
  import opened Packets
  import opened Replay
  import opened Queue
  import opened Traces
  import opened Memory
  import opened Inbox
  import opened Client
  import CR = ClientRuns

  /** What was queued in the connection was read under the key. */
  ghost predicate ReadUnder(t: Trace, key: Key) {
    forall item :: item in QueuedItemsSince(t, 0) ==> exists e :: e in Readings(t) && ReadAs(e, item, key)
  }

  ghost predicate Fed(c: Client) {
    && (Live(c) ==> ReadUnder(c.trace, c.readKey))
    && (c.state <= DISCONNECTED && !c.loopback ==> QueuedItemsSince(c.trace, 0) == [])
  }

  /** A trace that goes on without reading or queueing. */
  ghost predicate NothingNew(t: Trace, u: Trace) {
    QueuedItemsSince(u, 0) == QueuedItemsSince(t, 0) && Readings(u) == Readings(t)
  }

  /** The datagram reads as the packet, for some protocol and some window. */
  ghost predicate ReadFrom(a: Aead, d: Datagram, now: uint64, e: Effect) {
    e.Processed? && e.readKey.Some?
    && exists protocolId: uint64, w: Window ::
         ReadPacket(a, d.data, e.readKey, protocolId, now, None, ALLOWED, Some(w)).0 == Some((e.packet, e.sequence))
  }

  ghost predicate FromOne(a: Aead, ds: seq<Datagram>, now: uint64, e: Effect) {
    exists d :: d in ds && ReadFrom(a, d, now, e)
  }

  /** A step of the client: it stays fed, and whatever it reads is among the datagrams. */
  ghost predicate Hears(a: Aead, c: Client, r: Client, ds: seq<Datagram>, now: uint64) {
    && (Fed(c) ==> Fed(r))
    && (forall e :: e in Readings(r.trace) ==> e in Readings(c.trace) || FromOne(a, ds, now, e))
  }

  lemma QuietHears(a: Aead, c: Client, r: Client, ds: seq<Datagram>, now: uint64)
    requires NothingNew(c.trace, r.trace) && r.readKey == c.readKey && r.loopback == c.loopback
    requires r.state <= DISCONNECTED <==> c.state <= DISCONNECTED
    ensures Hears(a, c, r, ds, now)
  {
    hide QueuedItemsSince, Readings, FromOne;
  }

  lemma HearsTwice(a: Aead, c: Client, r: Client, u: Client, ds: seq<Datagram>, now: uint64)
    requires Hears(a, c, r, ds, now) && Hears(a, r, u, ds, now)
    ensures Hears(a, c, u, ds, now)
  {
    hide Fed, Readings, FromOne;
  }

  // ----- turning idle -----

  lemma {:induction false} PopAllNothingNew(b: Inbox)
    ensures NothingNew(b.trace, PopAll(b, 0).trace)
    decreases b.queue.num
  {
    PopContents(b.queue);
    var (item, rest) := Pop(b.queue);
    if item.Some? {
      PopAllNothingNew(Inbox(rest, Free(b.memory, item.value.id), Then(b.trace, Discarded(0, item.value))));
    }
  }

  lemma ResetHears(a: Aead, c: Client, state: int, ds: seq<Datagram>, now: uint64)
    requires state <= DISCONNECTED
    ensures Hears(a, c, ResetConnectionData(c, state), ds, now)
  {
    var reset := ResetBeforeNextConnect(SetState(ForgetConnection(c), state));
    PopAllNothingNew(Box(reset));
    assert QueuedItemsSince(reset.trace, 0) == [] && Readings(reset.trace) == Readings(c.trace);
    hide PopAll, QueuedItemsSince, Readings, FromOne;
  }

  lemma {:induction false} DisconnectsNothingNew(c: Client, n: nat)
    ensures var r := SendDisconnects(c, n);
            NothingNew(c.trace, r.trace) && r == c.(sequence := r.sequence, lastSend := r.lastSend, trace := r.trace)
    decreases n
  {
    if n > 0 {
      DisconnectsNothingNew(SendToServer(c, Disconnect), n - 1);
    }
  }

  lemma DisconnectHears(a: Aead, c: Client, destination: int, sendPackets: bool, ds: seq<Datagram>, now: uint64)
    requires destination <= DISCONNECTED
    ensures Hears(a, c, DisconnectInternal(c, destination, sendPackets), ds, now)
  {
    hide SendDisconnects, ResetConnectionData, Hears, NothingNew;
    DisconnectsNothingNew(c, NUM_DISCONNECT_PACKETS);
    var told := if sendPackets then SendDisconnects(c, NUM_DISCONNECT_PACKETS) else c;
    assert NothingNew(c.trace, c.trace) by {
      SameTrace(c.trace);
    }
    QuietHears(a, c, told, ds, now);
    QuietHears(a, c, c, ds, now);
    ResetHears(a, told, destination, ds, now);
    HearsTwice(a, c, told, ResetConnectionData(told, destination), ds, now);
  }

  lemma SameTrace(t: Trace)
    ensures NothingNew(t, t)
  {
  }

  lemma OneNothingNew(t: Trace, e: Effect)
    requires !e.Processed? && !e.Queued? && !Begins(e, 0)
    ensures NothingNew(t, Then(t, e))
  {
  }

  // ----- receiving -----

  lemma HandleNothingNew(c: Client, from: Address, p: Packet)
    ensures var r := Handle(c, from, p);
            && NothingNew(c.trace, r.trace) && r.readKey == c.readKey && r.loopback == c.loopback
            && (r.state <= DISCONNECTED <==> c.state <= DISCONNECTED)
  {
    hide NothingNew;
    SameTrace(c.trace);
    var r := Handle(c, from, p);
    if r.trace != c.trace {
      OneNothingNew(c.trace, r.trace.last);
    }
  }

  lemma DeliverHears(a: Aead, c: Client, from: Address, p: Packet, q: uint64, ds: seq<Datagram>, now: uint64)
    requires FromOne(a, ds, now, Processed(from, p, q, Some(c.readKey)))
    ensures Hears(a, c, Deliver(c, from, Some((p, q))), ds, now)
  {
    hide Enqueue, QueuedItemsSince, Readings, FromOne, Handle, Hears, NothingNew;
    var (id, memory) := Alloc(c.memory);
    var e := Processed(from, p, q, Some(c.readKey));
    var seen := c.(memory := memory, trace := Then(c.trace, e));
    var r := Deliver(c, from, Some((p, q)));
    SeenHears(a, c, seen, e, ds, now);
    if p.Payload? && c.state == CONNECTED && SameAddress(from, c.serverAddress) {
      PayloadHears(a, seen, r, from, Item(id, p.data, q), e, ds, now);
    } else {
      HandleNothingNew(seen, from, p);
      QuietHears(a, seen, r, ds, now);
    }
    HearsTwice(a, c, seen, r, ds, now);
  }

  lemma SeenHears(a: Aead, c: Client, seen: Client, e: Effect, ds: seq<Datagram>, now: uint64)
    requires FromOne(a, ds, now, e) && e.Processed?
    requires seen == c.(memory := seen.memory, trace := Then(c.trace, e))
    ensures Hears(a, c, seen, ds, now) && e in Readings(seen.trace)
  {
    assert Readings(seen.trace) == Readings(c.trace) + [e] && QueuedItemsSince(seen.trace, 0) == QueuedItemsSince(c.trace, 0);
    hide QueuedItemsSince, Readings, FromOne;
  }

  lemma PayloadHears(a: Aead, c: Client, r: Client, from: Address, item: Item, e: Effect, ds: seq<Datagram>, now: uint64)
    requires c.state == CONNECTED && e in Readings(c.trace) && ReadAs(e, item, c.readKey)
    requires r == WithBox(c, Enqueue(Box(c), 0, from, item)).(lastReceive := c.time)
    ensures Hears(a, c, r, ds, now)
  {
    hide Enqueue, QueuedItemsSince, Readings, FromOne;
    EnqueueEffect(Box(c), 0, from, item);
    QueuedOne(c.trace, r.trace, from, item, e, c.readKey);
  }

  lemma QueuedOne(t: Trace, u: Trace, from: Address, item: Item, e: Effect, key: Key)
    requires u.Then? && u.past == t && (u.last == Queued(0, from, item) || u.last == Dropped(0, item))
    requires e in Readings(t) && ReadAs(e, item, key)
    ensures Readings(u) == Readings(t) && (ReadUnder(t, key) ==> ReadUnder(u, key))
  {
  }

  lemma ReceiveHears(a: Aead, c: Client, d: Datagram, ds: seq<Datagram>, now: uint64)
    requires d in ds
    ensures Hears(a, c, Receive(a, c, d, now), ds, now)
  {
    hide ReadPacket, Deliver, Hears;
    var (reading, w) := ReadPacket(a, d.data, Some(c.readKey), c.token.protocolId, now, None, ALLOWED, Some(c.window));
    var moved := c.(window := w.value);
    SameTrace(c.trace);
    QuietHears(a, c, moved, ds, now);
    if reading.Some? {
      var (p, q) := reading.value;
      assert ReadFrom(a, d, now, Processed(d.from, p, q, Some(c.readKey)));
      DeliverHears(a, moved, d.from, p, q, ds, now);
      HearsTwice(a, c, moved, Receive(a, c, d, now), ds, now);
    } else {
      NothingDelivered(moved, d.from);
    }
  }

  lemma NothingDelivered(c: Client, from: Address)
    ensures Deliver(c, from, None) == c
  {
  }

  lemma {:induction false} ReceiveAllHears(a: Aead, c: Client, ds: seq<Datagram>, k: nat, now: uint64)
    requires k <= |ds|
    ensures Hears(a, c, ReceiveAll(a, c, ds[k..], now), ds, now)
    decreases |ds| - k
  {
    hide Receive, Hears;
    if k < |ds| {
      assert ds[k..][1..] == ds[k + 1..];
      ReceiveHears(a, c, ds[k], ds, now);
      ReceiveAllHears(a, Receive(a, c, ds[k], now), ds, k + 1, now);
      HearsTwice(a, c, Receive(a, c, ds[k], now), ReceiveAll(a, c, ds[k..], now), ds, now);
    } else {
      SameTrace(c.trace);
      QuietHears(a, c, c, ds, now);
    }
  }

  // ----- an update -----

  lemma SendPacketsHears(a: Aead, c: Client, ds: seq<Datagram>, now: uint64)
    ensures Hears(a, c, SendPackets(c), ds, now)
  {
    hide Hears, NothingNew;
    SameTrace(c.trace);
    var r := SendPackets(c);
    if r != c {
      OneNothingNew(c.trace, r.trace.last);
    }
    QuietHears(a, c, r, ds, now);
  }

  lemma FailOverHears(a: Aead, c: Client, state: int, ds: seq<Datagram>, now: uint64)
    requires c.state > DISCONNECTED && state <= DISCONNECTED
    ensures Hears(a, c, FailOver(c, state), ds, now)
  {
    hide Hears, NothingNew, DisconnectInternal;
    var (moved, next) := ConnectToNextServer(c);
    if moved {
      OneNothingNew(c.trace, next.trace.last);
      QuietHears(a, c, next, ds, now);
    } else {
      DisconnectHears(a, c, state, false, ds, now);
    }
  }

  lemma CheckDeadlinesHears(a: Aead, c: Client, ds: seq<Datagram>, now: uint64)
    requires Settleable(c)
    ensures Hears(a, c, CheckDeadlines(c), ds, now)
  {
    hide Hears, NothingNew, DisconnectInternal, FailOver, ExpireSeconds;
    SameTrace(c.trace);
    QuietHears(a, c, c, ds, now);
    DisconnectHears(a, c, CONNECT_TOKEN_EXPIRED, false, ds, now);
    DisconnectHears(a, c, CONNECTION_TIMED_OUT, false, ds, now);
    if c.state > DISCONNECTED {
      FailOverHears(a, c, REQUEST_TIMED_OUT, ds, now);
      FailOverHears(a, c, RESPONSE_TIMED_OUT, ds, now);
      if c.shouldDisconnect {
        FailOverHears(a, c, c.shouldDisconnectState, ds, now);
      }
    }
  }

  /** A pending disconnect, as every run leaves it. */
  ghost predicate Settleable(c: Client) {
    c.shouldDisconnect ==> c.state > DISCONNECTED && c.shouldDisconnectState <= DISCONNECTED
  }

  lemma DeliverSettleable(c: Client, from: Address, reading: Reading)
    requires Settleable(c)
    ensures Settleable(Deliver(c, from, reading))
  {
    hide Enqueue, Handle;
    if reading.Some? {
      var (p, q) := reading.value;
      HandleSettleable(c.(memory := Alloc(c.memory).1, trace := Then(c.trace, Processed(from, p, q, Some(c.readKey)))), from, p);
    }
  }

  lemma HandleSettleable(c: Client, from: Address, p: Packet)
    requires Settleable(c)
    ensures Settleable(Handle(c, from, p))
  {
  }

  lemma {:induction false} ReceiveAllSettleable(a: Aead, c: Client, ds: seq<Datagram>, now: uint64)
    requires Settleable(c)
    ensures Settleable(ReceiveAll(a, c, ds, now))
    decreases |ds|
  {
    hide ReadPacket, Deliver;
    if ds != [] {
      var (reading, w) :=
        ReadPacket(a, ds[0].data, Some(c.readKey), c.token.protocolId, now, None, ALLOWED, Some(c.window));
      DeliverSettleable(c.(window := w.value), ds[0].from, reading);
      ReceiveAllSettleable(a, Receive(a, c, ds[0], now), ds[1..], now);
    }
  }

  lemma UpdateHears(a: Aead, c: Client, time: real, ds: seq<Datagram>, now: uint64)
    requires Settleable(c)
    ensures Hears(a, c, Update(a, c, time, ds, now), ds, now)
  {
    hide Hears, NothingNew, ReceiveAll, SendPackets, CheckDeadlines;
    var ticked := c.(time := time);
    SameTrace(c.trace);
    QuietHears(a, c, ticked, ds, now);
    if !c.loopback {
      assert ds[0..] == ds;
      ReceiveAllHears(a, ticked, ds, 0, now);
      ReceiveAllSettleable(a, ticked, ds, now);
      var heard := ReceiveAll(a, ticked, ds, now);
      SendPacketsHears(a, heard, ds, now);
      SendsSettleable(heard);
      CheckDeadlinesHears(a, SendPackets(heard), ds, now);
      HearsTwice(a, c, ticked, heard, ds, now);
      HearsTwice(a, c, heard, SendPackets(heard), ds, now);
      HearsTwice(a, c, SendPackets(heard), Update(a, c, time, ds, now), ds, now);
    }
  }

  lemma SendsSettleable(c: Client)
    requires Settleable(c)
    ensures Settleable(SendPackets(c))
  {
  }

  // ----- the application's calls -----

  lemma ConnectHears(a: Aead, c: Client, tokenData: bytes)
    requires !c.loopback
    ensures Hears(a, c, ConnectWith(c, tokenData), [], 0)
  {
    hide DisconnectInternal, ReadConnect;
    DisconnectHears(a, c, DISCONNECTED, true, [], 0);
    LeavesIdle(c);
  }

  lemma LeavesIdle(c: Client)
    ensures var r := DisconnectInternal(c, DISCONNECTED, true);
            r.state <= DISCONNECTED && (!c.loopback ==> !r.loopback)
  {
    hide SendDisconnects, Drain;
  }

  lemma LoopbackHears(a: Aead, c: Client, data: bytes, q: uint64)
    requires c.loopback
    ensures Hears(a, c, ProcessLoopback(c, data, q), [], 0)
  {
    EnqueueEffect(Inbox(c.queue, Alloc(c.memory).1, c.trace), 0, NoAddress, Item(c.memory.next, data, q));
    hide Enqueue, QueuedItemsSince;
  }

  lemma TakeHears(a: Aead, c: Client)
    ensures Hears(a, c, ReceivePayload(c).1, [], 0)
  {
    hide Hears, NothingNew;
    SameTrace(c.trace);
    DequeueEffect(Box(c), 0);
    var r := ReceivePayload(c).1;
    if r.trace != c.trace {
      OneNothingNew(c.trace, r.trace.last);
    }
    hide Dequeue;
    QuietHears(a, c, r, [], 0);
  }

  lemma SendHears(a: Aead, c: Client, data: bytes)
    ensures Hears(a, c, SendPayload(c, data), [], 0)
  {
    hide Hears, NothingNew;
    SameTrace(c.trace);
    var r := SendPayload(c, data);
    if r != c {
      OneNothingNew(c.trace, r.trace.last);
    }
    QuietHears(a, c, r, [], 0);
  }

  lemma StepHears(a: Aead, c: Client, e: Event)
    requires Settleable(c) && Enabled(c, e)
    ensures if e.UpdateEvent? then Hears(a, c, Step(a, c, e), e.datagrams, e.now) else Hears(a, c, Step(a, c, e), [], 0)
  {
    hide Hears, NothingNew, Update, ConnectWith, SendPayload, ReceivePayload, DisconnectInternal, ResetConnectionData,
         ProcessLoopback, Settleable;
    match e
    case ConnectEvent(data) => ConnectHears(a, c, data);
    case UpdateEvent(time, ds, now) => UpdateHears(a, c, time, ds, now);
    case SendEvent(data) => SendHears(a, c, data);
    case ReceiveEvent => TakeHears(a, c);
    case FreeEvent(id) =>
      SameTrace(c.trace);
      QuietHears(a, c, Step(a, c, e), [], 0);
    case DisconnectEvent => DisconnectHears(a, c, DISCONNECTED, true, [], 0);
    case ConnectLoopbackEvent(index, max) => LoopbackBegins(a, c, index, max);
    case DisconnectLoopbackEvent => ResetHears(a, c, DISCONNECTED, [], 0);
    case LoopbackPacketEvent(data, q) => LoopbackHears(a, c, data, q);
  }

  lemma LoopbackBegins(a: Aead, c: Client, index: int32, max: int32)
    ensures Hears(a, c, ConnectLoopback(c, index, max), [], 0)
  {
    hide QueuedItemsSince, Readings;
  }

  // ----- runs -----

  /** The packet was read from a datagram of the run. */
  ghost predicate FromRun(a: Aead, es: seq<Event>, e: Effect) {
    exists i :: 0 <= i < |es| && es[i].UpdateEvent? && FromOne(a, es[i].datagrams, es[i].now, e)
  }

  lemma FromRest(a: Aead, es: seq<Event>, e: Effect)
    requires es != [] && FromRun(a, es[1..], e)
    ensures FromRun(a, es, e)
  {
    hide FromOne;
    var i :| 0 <= i < |es[1..]| && es[1..][i].UpdateEvent? && FromOne(a, es[1..][i].datagrams, es[1..][i].now, e);
    assert es[i + 1] == es[1..][i];
  }

  /** In every run each processed packet was read from a datagram of the run, and each payload queued
      since the client was last idle under the key of its token. */
  lemma {:induction false} RunReadings(a: Aead, c: Client, es: seq<Event>)
    requires CR.Inv(c) && !c.shouldDisconnect && Fed(c) && EnabledRun(a, c, es)
    ensures var d := Run(a, c, es);
            && Fed(d) && (forall e :: e in Readings(d.trace) ==> e in Readings(c.trace) || FromRun(a, es, e))
    decreases |es|
  {
    hide CR.Inv, Fed, Step, Enabled, Readings, FromRun, Hears;
    if es != [] {
      var r := Step(a, c, es[0]);
      CR.StepInv(a, c, es[0]);
      StepHears(a, c, es[0]);
      StaysFed(a, c, es[0]);
      RunReadings(a, r, es[1..]);
      forall e | e in Readings(Run(a, c, es).trace)
        ensures e in Readings(c.trace) || FromRun(a, es, e)
      {
        if e !in Readings(r.trace) {
          FromRest(a, es, e);
        } else {
          FromFirst(a, c, es, e);
        }
      }
    }
  }

  lemma StaysFed(a: Aead, c: Client, e: Event)
    requires if e.UpdateEvent? then Hears(a, c, Step(a, c, e), e.datagrams, e.now) else Hears(a, c, Step(a, c, e), [], 0)
    ensures Fed(c) ==> Fed(Step(a, c, e))
  {
    hide Fed, Step, Readings, FromOne;
  }

  lemma FromFirst(a: Aead, c: Client, es: seq<Event>, e: Effect)
    requires es != [] && e in Readings(Step(a, c, es[0]).trace)
    requires var r := Step(a, c, es[0]);
             if es[0].UpdateEvent? then Hears(a, c, r, es[0].datagrams, es[0].now) else Hears(a, c, r, [], 0)
    ensures e in Readings(c.trace) || FromRun(a, es, e)
  {
    hide Fed, Step, Readings, ReadFrom;
  }
}
