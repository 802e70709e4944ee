/** The payloads a client's application gives and takes, one for each call. */
module ClientPayloads {
  import opened Types
  import opened Crypto
  import opened Tokens
  import opened Packets
  import opened Queue
  import opened Traces
  import opened Memory
  import opened Inbox
  import opened Client

  /** What a send call adds to the payloads sent: nothing unless the client is connected. */
  function GivenNow(c: Client, e: Event): seq<Sending> {
    if e.SendEvent? && c.state == CONNECTED && !c.loopback && c.serverAddress != NoAddress
    then [Sending(e.data, c.sequence, c.writeKey, c.token.protocolId)]
    else []
  }

  /** The payloads of the send calls that a connected client was given, in order. */
  function PayloadsGiven(a: Aead, c: Client, es: seq<Event>): seq<Sending>
    decreases |es|
  {
    if es == [] then [] else GivenNow(c, es[0]) + PayloadsGiven(a, Step(a, c, es[0]), es[1..])
  }

  lemma {:induction false} PopAllSends(b: Inbox, slot: int)
    ensures Unsaid(b.trace, PopAll(b, slot).trace)
    decreases b.queue.num
  {
    PopContents(b.queue);
    var (item, rest) := Pop(b.queue);
    if item.Some? {
      PopAllSends(Inbox(rest, Free(b.memory, item.value.id), Then(b.trace, Discarded(slot, item.value))), slot);
    }
  }

  lemma {:induction false} DisconnectsSend(c: Client, n: nat)
    ensures Unsaid(c.trace, SendDisconnects(c, n).trace)
    decreases n
  {
    if n > 0 {
      DisconnectsSend(SendToServer(c, Disconnect), n - 1);
    }
  }

  lemma ResetSends(c: Client, state: int)
    ensures Unsaid(c.trace, ResetConnectionData(c, state).trace)
  {
    PopAllSends(Box(ResetBeforeNextConnect(SetState(ForgetConnection(c), state))), 0);
    hide PopAll;
  }

  lemma DisconnectSends(c: Client, destination: int, sendPackets: bool)
    ensures Unsaid(c.trace, DisconnectInternal(c, destination, sendPackets).trace)
  {
    DisconnectsSend(c, NUM_DISCONNECT_PACKETS);
    hide SendDisconnects, ResetConnectionData;
    ResetSends(if sendPackets then SendDisconnects(c, NUM_DISCONNECT_PACKETS) else c, destination);
  }

  lemma {:induction false} ReceiveAllSends(a: Aead, c: Client, ds: seq<Datagram>, now: uint64)
    ensures Unsaid(c.trace, ReceiveAll(a, c, ds, now).trace)
    decreases |ds|
  {
    hide ReadPacket, Deliver;
    if ds != [] {
      var (reading, moved) :=
        ReadPacket(a, ds[0].data, Some(c.readKey), c.token.protocolId, now, None, ALLOWED, Some(c.window));
      DeliverSends(c.(window := moved.value), ds[0].from, reading);
      ReceiveAllSends(a, Receive(a, c, ds[0], now), ds[1..], now);
    }
  }

  lemma DeliverSends(c: Client, from: Address, reading: Reading)
    ensures Unsaid(c.trace, Deliver(c, from, reading).trace)
  {
    if reading.Some? {
      var (p, q) := reading.value;
      var (id, memory) := Alloc(c.memory);
      var seen := c.(memory := memory, trace := Then(c.trace, Processed(from, p, q, Some(c.readKey))));
      UnsaidOne(c.trace, seen.trace.last);
      HandleSends(seen, from, p);
      EnqueueEffect(Box(seen), 0, from, Item(id, if p.Payload? then p.data else [], q));
      var b := Enqueue(Box(seen), 0, from, Item(id, if p.Payload? then p.data else [], q));
      UnsaidOne(seen.trace, b.trace.last);
      hide Enqueue, Handle, Unsaid;
      UnsaidTwice(c.trace, seen.trace, b.trace);
      UnsaidTwice(c.trace, seen.trace, Handle(seen, from, p).trace);
    } else {
      UnsaidItself(c.trace);
    }
  }

  lemma HandleSends(c: Client, from: Address, p: Packet)
    ensures Unsaid(c.trace, Handle(c, from, p).trace)
  {
  }

  lemma UpdateSends(a: Aead, c: Client, time: real, ds: seq<Datagram>, now: uint64)
    ensures Unsaid(c.trace, Update(a, c, time, ds, now).trace)
  {
    var ticked := c.(time := time);
    UnsaidItself(c.trace);
    ReceiveAllSends(a, ticked, ds, now);
    var received := ReceiveAll(a, ticked, ds, now);
    SendPacketsSends(received);
    hide ReceiveAll, SendPackets, CheckDeadlines, Unsaid;
    DeadlinesSend(SendPackets(received));
    UnsaidTwice(ticked.trace, received.trace, SendPackets(received).trace);
    UnsaidTwice(ticked.trace, SendPackets(received).trace, CheckDeadlines(SendPackets(received)).trace);
  }

  lemma SendPacketsSends(c: Client)
    ensures Unsaid(c.trace, SendPackets(c).trace)
  {
    hide Unsaid;
    UnsaidItself(c.trace);
    var r := SendPackets(c);
    if r != c {
      UnsaidOne(c.trace, r.trace.last);
    }
  }

  lemma DeadlinesSend(c: Client)
    ensures Unsaid(c.trace, CheckDeadlines(c).trace)
  {
    hide DisconnectInternal, ExpireSeconds;
    DisconnectSends(c, CONNECT_TOKEN_EXPIRED, false);
    DisconnectSends(c, c.shouldDisconnectState, false);
    DisconnectSends(c, REQUEST_TIMED_OUT, false);
    DisconnectSends(c, RESPONSE_TIMED_OUT, false);
    DisconnectSends(c, CONNECTION_TIMED_OUT, false);
  }

  lemma ConnectSends(c: Client, tokenData: bytes)
    ensures Unsaid(c.trace, ConnectWith(c, tokenData).trace)
  {
    DisconnectSends(c, DISCONNECTED, true);
    hide DisconnectInternal, ReadConnect;
  }

  lemma CallSends(a: Aead, c: Client, e: Event)
    requires !e.UpdateEvent? && !e.ConnectEvent? && !e.SendEvent? && !e.ReceiveEvent?
    ensures Unsaid(c.trace, Step(a, c, e).trace)
  {
    hide DisconnectInternal, ResetConnectionData, ProcessLoopback;
    match e
    case DisconnectEvent => DisconnectSends(c, DISCONNECTED, true);
    case DisconnectLoopbackEvent => ResetSends(c, DISCONNECTED);
    case LoopbackPacketEvent(data, q) => LoopbackSends(c, data, q);
    case _ =>
  }

  lemma LoopbackSends(c: Client, data: bytes, q: uint64)
    ensures Unsaid(c.trace, ProcessLoopback(c, data, q).trace)
  {
    EnqueueEffect(Inbox(c.queue, Alloc(c.memory).1, c.trace), 0, NoAddress, Item(c.memory.next, data, q));
    hide Enqueue;
  }

  /** What a receive call hands to the application: the oldest payload in the queue. */
  ghost function TakenNow(c: Client, e: Event): seq<Handing> {
    if e.ReceiveEvent? && Contents(c.queue) != [] then [Handing(0, Contents(c.queue)[0])] else []
  }

  ghost function TakenOver(a: Aead, c: Client, es: seq<Event>): seq<Handing>
    decreases |es|
  {
    if es == [] then [] else TakenNow(c, es[0]) + TakenOver(a, Step(a, c, es[0]), es[1..])
  }

  lemma TakeSays(c: Client)
    ensures var t, u := c.trace, ReceivePayload(c).1.trace;
            Handings(u) == Handings(t) + TakenNow(c, ReceiveEvent) && PayloadsSent(u) == PayloadsSent(t)
    ensures ReceivePayload(c).0 == if Contents(c.queue) == [] then None else Some(Contents(c.queue)[0])
  {
    PopContents(c.queue);
    hide Contents, Pop;
  }

  lemma StepSays(a: Aead, c: Client, e: Event)
    ensures var t, u := c.trace, Step(a, c, e).trace;
            && Handings(u) == Handings(t) + TakenNow(c, e)
            && PayloadsSent(u) == PayloadsSent(t) + GivenNow(c, e)
  {
    hide Update, ConnectWith, ReceivePayload;
    match e
    case UpdateEvent(time, ds, now) => UpdateSends(a, c, time, ds, now);
    case ConnectEvent(data) => ConnectSends(c, data);
    case SendEvent(data) =>
    case ReceiveEvent => TakeSays(c);
    case _ => CallSends(a, c, e);
  }

  /** Over every run, what a client sealed is what its application gave it while it was connected, one
      packet for each call, and what it handed over is what the application's receive calls took,
      each time the oldest payload in the queue. */
  lemma {:induction false} RunSays(a: Aead, c: Client, es: seq<Event>)
    ensures var t, u := c.trace, Run(a, c, es).trace;
            && Handings(u) == Handings(t) + TakenOver(a, c, es)
            && PayloadsSent(u) == PayloadsSent(t) + PayloadsGiven(a, c, es)
    decreases |es|
  {
    if es != [] {
      StepSays(a, c, es[0]);
      hide Step, Handings, PayloadsSent, TakenNow, GivenNow;
      RunSays(a, Step(a, c, es[0]), es[1..]);
    }
  }
}
