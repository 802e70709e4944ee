/** How long a client goes on connecting, and what a disconnect packet does to it. */
module ClientFailover {
  import opened Types
  import opened Crypto
  import opened Tokens
  import opened Packets
  import opened Replay
  import opened Traces
  import opened Memory
  import opened Inbox
  import opened Client
  import opened ClientRuns
  import opened ClientTheorems

  // ----- a disconnect packet -----

  /** A connected client that receives one genuine disconnect packet of its server in an update is
      disconnected if and only if its token lists no further server; otherwise it requests a
      connection from the next one. */
  lemma DisconnectFailsOver(a: Aead, c: Client, q: uint64, time: real, now: uint64)
    requires Lawful(a) && Inv(c) && Live(c) && c.state == CONNECTED && !AlreadyReceived(c.window, q).0
    ensures var wire := WritePacket(a, Disconnect, q, c.readKey, c.token.protocolId);
            var d := Update(a, c, time, [Datagram(c.serverAddress, wire)], now);
            && (d.state == DISCONNECTED <==> c.serverIndex + 1 == |c.token.servers|)
            && (c.serverIndex + 1 < |c.token.servers| ==>
                  && d.state == SENDING_REQUEST && d.token == c.token && d.serverIndex == c.serverIndex + 1
                  && d.serverAddress == c.token.servers[c.serverIndex + 1])
  {
    var wire := WritePacket(a, Disconnect, q, c.readKey, c.token.protocolId);
    var ticked := c.(time := time);
    SealedRoundTrip(a, Disconnect, q, c.readKey, c.token.protocolId, now, None, ALLOWED, Some(c.window));
    AimedFacts(c);
    var heard := Receive(a, ticked, Datagram(c.serverAddress, wire), now);
    DisconnectHeard(a, ticked, q, now);
    assert ReceiveAll(a, ticked, [Datagram(c.serverAddress, wire)], now) == heard by {
      assert [Datagram(c.serverAddress, wire)][1..] == [];
    }
    hide ReadPacket, WritePacket, Lawful, Receive, ReceiveAll, ResetConnectionData, Inv;
    SendKeeps(heard);
  }

  lemma DisconnectHeard(a: Aead, c: Client, q: uint64, now: uint64)
    requires Lawful(a) && Live(c) && c.state == CONNECTED && c.serverAddress != NoAddress
    requires !AlreadyReceived(c.window, q).0
    ensures var wire := WritePacket(a, Disconnect, q, c.readKey, c.token.protocolId);
            var d := Receive(a, c, Datagram(c.serverAddress, wire), now);
            && d.shouldDisconnect && d.shouldDisconnectState == DISCONNECTED && d.state == CONNECTED && !d.loopback
            && d.token == c.token && d.serverIndex == c.serverIndex && d.time == c.time
  {
    hide Lawful, ReadPacket, WritePacket, AlreadyReceived;
    SealedRoundTrip(a, Disconnect, q, c.readKey, c.token.protocolId, now, None, ALLOWED, Some(c.window));
  }

  lemma SendKeeps(c: Client)
    ensures var r := SendPackets(c);
            r == c.(sequence := r.sequence, lastSend := r.lastSend, trace := r.trace)
  {
  }

  // ----- the token's lifetime -----

  /** Receiving changes nothing of where a live client aims and since when, and keeps it live. */
  ghost predicate SameAim(c: Client, d: Client) {
    && d.token == c.token && d.serverIndex == c.serverIndex && d.connectStart == c.connectStart
    && d.time == c.time && d.loopback == c.loopback && (c.state > DISCONNECTED ==> d.state > DISCONNECTED)
    && (c.state <= DISCONNECTED ==> d.state == c.state && d.shouldDisconnect == c.shouldDisconnect)
  }

  lemma HandleKeepsAim(c: Client, from: Address, p: Packet)
    ensures SameAim(c, Handle(c, from, p))
  {
  }

  lemma DeliverKeepsAim(c: Client, from: Address, reading: Reading)
    ensures SameAim(c, Deliver(c, from, reading))
  {
    hide Enqueue, Handle;
    if reading.Some? {
      var (p, q) := reading.value;
      HandleKeepsAim(c.(memory := Alloc(c.memory).1, trace := Then(c.trace, Processed(from, p, q, Some(c.readKey)))), from, p);
    }
  }

  lemma {:induction false} ReceiveAllKeepsAim(a: Aead, c: Client, ds: seq<Datagram>, now: uint64)
    ensures SameAim(c, ReceiveAll(a, c, ds, now))
    decreases |ds|
  {
    hide ReadPacket, Deliver;
    if ds != [] {
      var (reading, moved) :=
        ReadPacket(a, ds[0].data, Some(c.readKey), c.token.protocolId, now, None, ALLOWED, Some(c.window));
      DeliverKeepsAim(c.(window := moved.value), ds[0].from, reading);
      ReceiveAllKeepsAim(a, Receive(a, c, ds[0], now), ds[1..], now);
    }
  }

  lemma DeadlinesMoveAim(c: Client)
    requires Inv(c) && Live(c)
    ensures var d := CheckDeadlines(c);
            d.state > DISCONNECTED ==>
              && !d.loopback && d.token == c.token && d.time == c.time
              && (|| (&& d.serverIndex == c.serverIndex && d.connectStart == c.connectStart
                      && (d.state < CONNECTED ==> c.time < c.connectStart + ExpireSeconds(c.token) as real))
                  || (d.serverIndex == c.serverIndex + 1 < |c.token.servers| && d.connectStart == c.time))
  {
    AimedFacts(c);
    hide ExpireSeconds, Drain, Inv;
  }

  /** What an update does to the aim of a client: nothing, or it turns to the next server now. */
  lemma UpdateMovesAim(a: Aead, c: Client, time: real, ds: seq<Datagram>, now: uint64)
    requires Inv(c) && Live(c)
    ensures var d := Update(a, c, time, ds, now);
            d.state > DISCONNECTED ==>
              && Live(d) && d.token == c.token && d.time == time
              && (|| (&& d.serverIndex == c.serverIndex && d.connectStart == c.connectStart
                      && (d.state < CONNECTED ==> time < c.connectStart + ExpireSeconds(c.token) as real))
                  || (d.serverIndex == c.serverIndex + 1 < |c.token.servers| && d.connectStart == time))
  {
    hide ExpireSeconds, ReceiveAll, SendPackets, CheckDeadlines, Inv;
    var ticked := c.(time := time);
    TimeInv(c, time);
    ReceiveAllInv(a, ticked, ds, now);
    ReceiveAllKeepsAim(a, ticked, ds, now);
    var received := ReceiveAll(a, ticked, ds, now);
    SendPacketsInv(received);
    SendKeeps(received);
    DeadlinesMoveAim(SendPackets(received));
  }

  /** A run in which the client keeps trying: no further connect call, updates at most `gap` apart,
      and never connected after a call. */
  ghost predicate Trying(a: Aead, c: Client, es: seq<Event>, gap: real)
    decreases |es|
  {
    es == []
    || (&& Enabled(c, es[0]) && !es[0].ConnectEvent?
        && (es[0].UpdateEvent? ==> c.time <= es[0].time <= c.time + gap)
        && Step(a, c, es[0]).state != CONNECTED
        && Trying(a, Step(a, c, es[0]), es[1..], gap))
  }

  function Lifetime(c: Client): real {
    ExpireSeconds(c.token) as real
  }

  /** The longest time k servers can take. */
  function Span(k: nat, lifetime: real, gap: real): real {
    k as real * (lifetime + gap)
  }

  lemma SpanNext(k: nat, lifetime: real, gap: real)
    ensures Span(k + 1, lifetime, gap) == Span(k, lifetime, gap) + lifetime + gap
    ensures Span(0, lifetime, gap) == 0.0
  {
  }

  /** When the client turned to its present server, at the latest. */
  ghost predicate InTime(c: Client, start: real, gap: real) {
    c.state > DISCONNECTED ==>
      && Live(c)
      && c.connectStart <= start + Span(c.serverIndex, Lifetime(c), gap)
      && c.time <= c.connectStart + Lifetime(c)
  }

  lemma UpdateInTime(a: Aead, c: Client, e: Event, start: real, gap: real)
    requires Inv(c) && Live(c) && e.UpdateEvent? && InTime(c, start, gap) && gap >= 0.0 && c.time <= e.time <= c.time + gap
    requires Step(a, c, e).state != CONNECTED
    ensures InTime(Step(a, c, e), start, gap)
    ensures Step(a, c, e).state > DISCONNECTED ==> Step(a, c, e).token == c.token
  {
    var d := Update(a, c, e.time, e.datagrams, e.now);
    UpdateMovesAim(a, c, e.time, e.datagrams, e.now);
    UpdateInv(a, c, e.time, e.datagrams, e.now);
    AimedFacts(d);
    hide Inv, ExpireSeconds, Update, Span;
    assert Step(a, c, e) == d;
    if d.state > DISCONNECTED {
      MovedInTime(c, d, start, gap);
    }
  }

  lemma MovedInTime(c: Client, d: Client, start: real, gap: real)
    requires Live(c) && Live(d) && InTime(c, start, gap) && gap >= 0.0 && d.time <= c.time + gap && d.token == c.token
    requires || (&& d.serverIndex == c.serverIndex && d.connectStart == c.connectStart
                 && d.time <= c.connectStart + Lifetime(c))
             || (d.serverIndex == c.serverIndex + 1 && d.connectStart == d.time)
    ensures InTime(d, start, gap)
  {
    SpanNext(c.serverIndex, Lifetime(c), gap);
    hide ExpireSeconds, Span;
  }

  lemma IdleStays(a: Aead, c: Client, time: real, ds: seq<Datagram>, now: uint64)
    requires Inv(c) && c.state <= DISCONNECTED && !c.shouldDisconnect
    ensures Update(a, c, time, ds, now).state <= DISCONNECTED
  {
    ReceiveAllKeepsAim(a, c.(time := time), ds, now);
    hide ReceiveAll, Inv, FailOver, DisconnectInternal;
    SendKeeps(ReceiveAll(a, c.(time := time), ds, now));
  }

  /** The calls that are no updates. */
  lemma CallKeepsAim(a: Aead, c: Client, e: Event)
    requires Inv(c) && c.state != CONNECTED
    requires Enabled(c, e) && !e.ConnectEvent? && !e.UpdateEvent? && Step(a, c, e).state != CONNECTED
    ensures Step(a, c, e).state <= DISCONNECTED || (SameAim(c, Step(a, c, e)) && Step(a, c, e).state == c.state)
  {
    AimedFacts(c);
    if e.DisconnectEvent? {
      DisconnectInv(c, DISCONNECTED, true);
      hide Inv, DisconnectInternal;
    } else {
      hide Inv, Aimed, DisconnectInternal, Dequeue, Enqueue, ResetConnectionData;
    }
  }

  lemma CallInTime(a: Aead, c: Client, e: Event, start: real, gap: real)
    requires Inv(c) && c.state != CONNECTED && InTime(c, start, gap)
    requires Enabled(c, e) && !e.ConnectEvent? && !e.UpdateEvent? && Step(a, c, e).state != CONNECTED
    ensures InTime(Step(a, c, e), start, gap)
    ensures Step(a, c, e).state > DISCONNECTED ==> Live(c) && Step(a, c, e).token == c.token
  {
    CallKeepsAim(a, c, e);
    hide Step, Inv, Enabled, ExpireSeconds, Span;
  }

  lemma StepInTime(a: Aead, c: Client, e: Event, start: real, gap: real)
    requires Inv(c) && !c.shouldDisconnect && c.state != CONNECTED && InTime(c, start, gap) && gap >= 0.0
    requires Enabled(c, e) && !e.ConnectEvent? && (e.UpdateEvent? ==> c.time <= e.time <= c.time + gap)
    requires Step(a, c, e).state != CONNECTED
    ensures InTime(Step(a, c, e), start, gap)
    ensures Step(a, c, e).state > DISCONNECTED ==> Live(c) && Step(a, c, e).token == c.token
  {
    AimedFacts(c);
    if !e.UpdateEvent? {
      CallInTime(a, c, e, start, gap);
    } else if Live(c) {
      UpdateInTime(a, c, e, start, gap);
    } else {
      IdleStays(a, c, e.time, e.datagrams, e.now);
      hide Update;
    }
  }

  lemma {:induction false} TryingInTime(a: Aead, c: Client, es: seq<Event>, start: real, gap: real)
    requires Inv(c) && !c.shouldDisconnect && c.state != CONNECTED && InTime(c, start, gap) && gap >= 0.0
    requires Trying(a, c, es, gap)
    ensures var d := Run(a, c, es);
            && InTime(d, start, gap) && Inv(d)
            && (d.state > DISCONNECTED ==> Live(c) && d.token == c.token)
    decreases |es|
  {
    hide Inv, Lifetime, Step, Enabled;
    if es != [] {
      StepInv(a, c, es[0]);
      StepInTime(a, c, es[0], start, gap);
      TryingInTime(a, Step(a, c, es[0]), es[1..], start, gap);
    }
  }

  /** The lifetime of a token counts for each server again: with n servers a client that was never
      connected may go on connecting for n lifetimes and the gaps between updates, no longer.  With
      one server that is one lifetime. */
  lemma ConnectingEnds(a: Aead, c: Client, tokenData: bytes, es: seq<Event>, gap: real)
    requires Inv(c) && !c.loopback && ReadConnect(tokenData).Some? && gap >= 0.0
    requires Trying(a, ConnectWith(c, tokenData), es, gap)
    ensures var d := Run(a, ConnectWith(c, tokenData), es);
            var n := |ReadConnect(tokenData).value.servers|;
            d.state > DISCONNECTED ==>
              && d.token == ReadConnect(tokenData).value
              && d.time <= c.time + Span(n - 1, Lifetime(d), gap) + Lifetime(d)
  {
    hide ConnectWith, ReadConnect, ExpireSeconds, Trying, Inv, Span, Aimed, Enabled;
    ConnectBegins(c, tokenData, gap);
    TryingInTime(a, ConnectWith(c, tokenData), es, c.time, gap);
    if Run(a, ConnectWith(c, tokenData), es).state > DISCONNECTED {
      StillTrying(Run(a, ConnectWith(c, tokenData), es), c.time, gap);
    }
  }

  lemma StillTrying(d: Client, start: real, gap: real)
    requires Inv(d) && InTime(d, start, gap) && d.state > DISCONNECTED && gap >= 0.0
    ensures d.token.servers != [] && d.time <= start + Span(|d.token.servers| - 1, Lifetime(d), gap) + Lifetime(d)
  {
    AimedFacts(d);
    WithinServers(d.serverIndex, |d.token.servers|, Lifetime(d), gap);
    hide Inv, Span, ExpireSeconds;
  }

  lemma ConnectBegins(c: Client, tokenData: bytes, gap: real)
    requires Inv(c) && !c.loopback && ReadConnect(tokenData).Some?
    ensures var d := ConnectWith(c, tokenData);
            && Inv(d) && Live(d) && !d.shouldDisconnect && d.state == SENDING_REQUEST
            && d.token == ReadConnect(tokenData).value && InTime(d, c.time, gap)
  {
    ConnectFacts(c, tokenData);
    SpanNext(0, Lifetime(ConnectWith(c, tokenData)), gap);
    hide ConnectWith, ReadConnect, ExpireSeconds, Inv, Span;
  }

  lemma WithinServers(index: nat, n: nat, lifetime: real, gap: real)
    requires index < n && lifetime >= 0.0 && gap >= 0.0
    ensures Span(index, lifetime, gap) <= Span(n - 1, lifetime, gap)
  {
    ScaleMonotone(index as real, (n - 1) as real, lifetime + gap);
  }
}
