/** For which tokens an attempt to connect can outlive the lifetime of its token. */
module ClientLifetime {
  import opened Types
  import opened Crypto
  import opened Tokens
  import opened Packets
  import opened Replay
  import opened Traces
  import opened Memory
  import opened Inbox
  import opened Client
  import opened ClientRuns
  import opened ClientTheorems
  import opened ClientFailover
  import opened EndToEnd
  import opened Handshake

  // ----- how long each state can last -----

  function Timeout(c: Client): real {
    c.token.timeoutSeconds as real
  }

  /** What receiving does to a client that is connecting: nothing, it hears a challenge, it is
      connected, or it is told to give up. */
  ghost predicate Hears(c: Client, d: Client) {
    && SameAim(c, d)
    && (c.shouldDisconnect ==> d.shouldDisconnect)
    && (c.state == CONNECTED ==> d.state == CONNECTED)
    && (DISCONNECTED < c.state < CONNECTED && !c.shouldDisconnect ==>
          || d.shouldDisconnect || d.state == CONNECTED
          || (d.state == c.state && d.lastReceive == c.lastReceive)
          || (c.state == SENDING_REQUEST && d.state == SENDING_RESPONSE && d.lastReceive == c.time))
  }

  lemma HandleHears(c: Client, from: Address, p: Packet)
    ensures Hears(c, Handle(c, from, p))
  {
  }

  lemma DeliverHears(c: Client, from: Address, reading: Reading)
    ensures Hears(c, Deliver(c, from, reading))
  {
    hide Enqueue, Handle;
    if reading.Some? {
      var (p, q) := reading.value;
      HandleHears(c.(memory := Alloc(c.memory).1, trace := Then(c.trace, Processed(from, p, q, Some(c.readKey)))), from, p);
    }
  }

  lemma {:induction false} ReceiveAllHears(a: Aead, c: Client, ds: seq<Datagram>, now: uint64)
    ensures Hears(c, ReceiveAll(a, c, ds, now))
    decreases |ds|
  {
    hide ReadPacket, Deliver;
    if ds != [] {
      var (reading, moved) :=
        ReadPacket(a, ds[0].data, Some(c.readKey), c.token.protocolId, now, None, ALLOWED, Some(c.window));
      DeliverHears(c.(window := moved.value), ds[0].from, reading);
      ReceiveAllHears(a, Receive(a, c, ds[0], now), ds[1..], now);
    }
  }

  /** One call that leaves the client connecting: it goes on as before, it heard a challenge, or it
      turned to the next server. */
  ghost predicate Proceeds(c: Client, d: Client) {
    && Live(d) && d.token == c.token
    && (|| (d.serverIndex == c.serverIndex && d.state == c.state && d.lastReceive == c.lastReceive)
        || (&& d.serverIndex == c.serverIndex && c.state == SENDING_REQUEST && d.state == SENDING_RESPONSE
            && d.lastReceive == d.time)
        || (d.serverIndex == c.serverIndex + 1 && d.state == SENDING_REQUEST && d.lastReceive == d.time))
  }

  lemma DeadlinesProceed(c: Client, r: Client)
    requires Inv(r) && Live(r) && Live(c) && c.state < CONNECTED && !c.shouldDisconnect && Hears(c, r)
    ensures var d := CheckDeadlines(r);
            DISCONNECTED < d.state < CONNECTED ==> Proceeds(c, d) && d.time == c.time
  {
    AimedFacts(r);
    hide ExpireSeconds, Drain, Inv;
  }

  lemma UpdateProceeds(a: Aead, c: Client, time: real, ds: seq<Datagram>, now: uint64)
    requires Inv(c) && Live(c) && c.state < CONNECTED && !c.shouldDisconnect
    ensures var d := Update(a, c, time, ds, now);
            && (DISCONNECTED < d.state < CONNECTED ==> Proceeds(c, d))
            && (Live(d) && Timeout(d) > 0.0 ==> d.time <= d.lastReceive + Timeout(d))
  {
    UpdateInv(a, c, time, ds, now);
    hide ReceiveAll, SendPackets, CheckDeadlines, Inv;
    var ticked := c.(time := time);
    TimeInv(c, time);
    ReceiveAllInv(a, ticked, ds, now);
    ReceiveAllHears(a, ticked, ds, now);
    var received := ReceiveAll(a, ticked, ds, now);
    SendPacketsInv(received);
    SendKeeps(received);
    DeadlinesProceed(ticked, SendPackets(received));
  }

  // ----- with a timeout, an attempt ends -----

  /** How long the servers before the k-th can take, with a timeout and a gap between updates. */
  function Turns(k: nat, timeout: real, gap: real): real {
    Span(k, timeout + gap, timeout + gap)
  }

  /** When the client last heard its server, at the latest. */
  ghost predicate OnPace(c: Client, start: real, gap: real) {
    c.state > DISCONNECTED ==>
      && Live(c) && c.state < CONNECTED && Timeout(c) > 0.0
      && c.time <= c.lastReceive + Timeout(c)
      && c.lastReceive <= start + Turns(c.serverIndex, Timeout(c), gap)
                          + (if c.state == SENDING_RESPONSE then Timeout(c) + gap else 0.0)
  }

  lemma ProceedsOnPace(c: Client, d: Client, start: real, gap: real)
    requires Live(c) && OnPace(c, start, gap) && gap >= 0.0 && Proceeds(c, d) && d.state < CONNECTED
    requires d.time <= c.time + gap && d.time <= d.lastReceive + Timeout(d)
    ensures OnPace(d, start, gap)
  {
    SpanNext(c.serverIndex, Timeout(c) + gap, Timeout(c) + gap);
    hide Span;
  }

  /** The calls that are no updates. */
  lemma CallKeepsPace(a: Aead, c: Client, e: Event)
    requires Inv(c) && c.state != CONNECTED
    requires Enabled(c, e) && !e.ConnectEvent? && !e.UpdateEvent? && Step(a, c, e).state != CONNECTED
    ensures var d := Step(a, c, e);
            d.state <= DISCONNECTED
            || (d.state == c.state && SameAim(c, d) && d.lastReceive == c.lastReceive)
  {
    CallKeepsAim(a, c, e);
    AimedFacts(c);
    if e.DisconnectEvent? {
      DisconnectInv(c, DISCONNECTED, true);
      hide Inv, DisconnectInternal;
    } else {
      hide Inv, Aimed, DisconnectInternal, Dequeue, Enqueue, ResetConnectionData;
    }
  }

  lemma StepOnPace(a: Aead, c: Client, e: Event, start: real, gap: real)
    requires Inv(c) && !c.shouldDisconnect && c.state != CONNECTED && OnPace(c, start, gap) && gap >= 0.0
    requires Enabled(c, e) && !e.ConnectEvent? && (e.UpdateEvent? ==> c.time <= e.time <= c.time + gap)
    requires Step(a, c, e).state != CONNECTED
    ensures OnPace(Step(a, c, e), start, gap)
    ensures Step(a, c, e).state > DISCONNECTED ==> Live(c) && Step(a, c, e).token == c.token
  {
    AimedFacts(c);
    if !e.UpdateEvent? {
      CallKeepsPace(a, c, e);
      hide Step, Inv, Enabled, Span;
    } else if Live(c) {
      var d := Update(a, c, e.time, e.datagrams, e.now);
      UpdateProceeds(a, c, e.time, e.datagrams, e.now);
      UpdateInv(a, c, e.time, e.datagrams, e.now);
      AimedFacts(d);
      hide Inv, Update, Span;
      if d.state > DISCONNECTED {
        ProceedsOnPace(c, d, start, gap);
      }
    } else {
      IdleStays(a, c, e.time, e.datagrams, e.now);
      hide Update;
    }
  }

  lemma {:induction false} TryingOnPace(a: Aead, c: Client, es: seq<Event>, start: real, gap: real)
    requires Inv(c) && !c.shouldDisconnect && c.state != CONNECTED && OnPace(c, start, gap) && gap >= 0.0
    requires Trying(a, c, es, gap)
    ensures var d := Run(a, c, es);
            OnPace(d, start, gap) && Inv(d) && (d.state > DISCONNECTED ==> Live(c) && d.token == c.token)
    decreases |es|
  {
    hide Inv, Turns, Step, Enabled;
    if es != [] {
      StepInv(a, c, es[0]);
      StepOnPace(a, c, es[0], start, gap);
      TryingOnPace(a, Step(a, c, es[0]), es[1..], start, gap);
    }
  }

  // ----- runs that last -----

  /** A client that requests from its server number `index` since the time `since`. */
  ghost predicate Requests(c: Client, t: ConnectToken, index: nat, since: real) {
    && Inv(c) && Live(c) && !c.shouldDisconnect && c.state == SENDING_REQUEST
    && c.token == t && c.serverIndex == index && c.connectStart == since && c.lastReceive == since
    && c.window == Fresh(|c.window.received|)
  }

  /** A client that has had a challenge from it at the time `heard`. */
  ghost predicate Responds(c: Client, t: ConnectToken, index: nat, since: real, heard: real) {
    && Inv(c) && Live(c) && !c.shouldDisconnect && c.state == SENDING_RESPONSE
    && c.token == t && c.serverIndex == index && c.connectStart == since && c.lastReceive == heard
  }

  /** The time is within the deadlines of a client that keeps its state. */
  predicate Allowed(c: Client, time: real) {
    time < c.connectStart + Lifetime(c) && (Timeout(c) > 0.0 ==> time <= c.lastReceive + Timeout(c))
  }

  /** Time passed and packets were sent, and nothing else. */
  ghost predicate Idled(c: Client, d: Client, time: real) {
    d == c.(time := time, sequence := d.sequence, lastSend := d.lastSend, trace := d.trace)
  }

  lemma QuietUpdate(a: Aead, c: Client, time: real)
    requires Live(c) && c.state < CONNECTED && !c.shouldDisconnect && Allowed(c, time)
    ensures Idled(c, Update(a, c, time, [], 0), time)
  {
    assert ReceiveAll(a, c.(time := time), [], 0) == c.(time := time);
    SendKeeps(c.(time := time));
    hide SendPackets, ExpireSeconds, DisconnectInternal, ReceiveAll;
  }

  lemma {:induction false} TryingTwice(a: Aead, c: Client, es: seq<Event>, fs: seq<Event>, gap: real)
    requires Trying(a, c, es, gap) && Trying(a, Run(a, c, es), fs, gap)
    ensures Trying(a, c, es + fs, gap) && Run(a, c, es + fs) == Run(a, Run(a, c, es), fs)
    decreases |es|
  {
    if es == [] {
      assert es + fs == fs;
    } else {
      assert (es + fs)[1..] == es[1..] + fs;
      hide Step, Enabled;
      TryingTwice(a, Step(a, c, es[0]), es[1..], fs, gap);
    }
  }

  lemma OneUpdate(a: Aead, c: Client, time: real, ds: seq<Datagram>, gap: real)
    requires c.time <= time <= c.time + gap && Update(a, c, time, ds, 0).state != CONNECTED
    ensures Trying(a, c, [UpdateEvent(time, ds, 0)], gap)
    ensures Run(a, c, [UpdateEvent(time, ds, 0)]) == Update(a, c, time, ds, 0)
  {
    var e := UpdateEvent(time, ds, 0);
    assert [e][1..] == [];
    hide Update;
    assert Trying(a, Step(a, c, e), [], gap) && Run(a, Step(a, c, e), []) == Step(a, c, e);
  }

  /** A client can wait for any time within its deadlines, however short the gaps are. */
  lemma {:induction false} Waits(a: Aead, c: Client, time: real, gap: real, steps: nat) returns (es: seq<Event>)
    requires Inv(c) && Live(c) && c.state < CONNECTED && !c.shouldDisconnect && Allowed(c, time)
    requires gap > 0.0 && c.time <= time <= c.time + steps as real * gap
    ensures Trying(a, c, es, gap) && Idled(c, Run(a, c, es), time) && Inv(Run(a, c, es))
    decreases steps
  {
    hide Inv, Update, Trying, Run;
    if time <= c.time + gap {
      QuietUpdate(a, c, time);
      UpdateInv(a, c, time, [], 0);
      OneUpdate(a, c, time, [], gap);
      es := [UpdateEvent(time, [], 0)];
    } else {
      var soon := c.time + gap;
      QuietUpdate(a, c, soon);
      UpdateInv(a, c, soon, [], 0);
      OneUpdate(a, c, soon, [], gap);
      var d := Update(a, c, soon, [], 0);
      assert (steps - 1) as real * gap == steps as real * gap - gap;
      var rest := Waits(a, d, time, gap, steps - 1);
      TryingTwice(a, c, [UpdateEvent(soon, [], 0)], rest, gap);
      es := [UpdateEvent(soon, [], 0)] + rest;
    }
  }

  lemma EnoughSteps(span: real, gap: real) returns (steps: nat)
    requires span >= 0.0 && gap > 0.0
    ensures span <= steps as real * gap
  {
    var k := (span / gap).Floor + 1;
    assert k >= 1;
    assert span / gap <= k as real;
    ScaleMonotone(span / gap, k as real, gap);
    steps := k;
  }

  lemma WaitsUntil(a: Aead, c: Client, time: real, gap: real) returns (es: seq<Event>)
    requires Inv(c) && Live(c) && c.state < CONNECTED && !c.shouldDisconnect && Allowed(c, time)
    requires gap > 0.0 && c.time <= time
    ensures Trying(a, c, es, gap) && Idled(c, Run(a, c, es), time) && Inv(Run(a, c, es))
  {
    hide Inv, Trying, Run, Idled, Allowed;
    var steps := EnoughSteps(time - c.time, gap);
    es := Waits(a, c, time, gap, steps);
  }

  // ----- packets of the server -----

  function From(a: Aead, c: Client, p: Packet, q: uint64): Datagram {
    Datagram(c.serverAddress, WritePacket(a, p, q, c.readKey, c.token.protocolId))
  }

  /** An update in which a genuine challenge comes. */
  lemma ChallengeUpdate(a: Aead, c: Client, t: ConnectToken, index: nat, since: real, time: real)
    requires Lawful(a) && Requests(c, t, index, since) && time < since + Lifetime(c) && c.serverAddress != NoAddress
    ensures Responds(Update(a, c, time, [From(a, c, Challenge(0, ZERO_CHALLENGE_DATA), 0)], 0), t, index, since, time)
    ensures Update(a, c, time, [From(a, c, Challenge(0, ZERO_CHALLENGE_DATA), 0)], 0).time == time
  {
    var d := From(a, c, Challenge(0, ZERO_CHALLENGE_DATA), 0);
    var ticked := c.(time := time);
    UpdateInv(a, c, time, [d], 0);
    ChallengeHeard(a, ticked, 0, ZERO_CHALLENGE_DATA, 0, 0);
    ChallengeClocks(a, ticked, 0, ZERO_CHALLENGE_DATA, 0, 0);
    OneDatagram(a, ticked, d, 0);
    ReceiveAllKeepsAim(a, ticked, [d], 0);
    hide Lawful, WritePacket, Receive, ReceiveAll, SendPackets, ExpireSeconds, FailOver, DisconnectInternal, Inv;
    SendKeeps(Receive(a, ticked, d, 0));
  }

  lemma DeniedHeard(a: Aead, c: Client)
    requires Lawful(a) && Live(c) && c.state == SENDING_RESPONSE && c.serverAddress != NoAddress
    ensures var d := Receive(a, c, From(a, c, Denied, 0), 0);
            && d.shouldDisconnect && d.shouldDisconnectState == CONNECTION_DENIED && d.state == SENDING_RESPONSE
  {
    hide Lawful, ReadPacket, WritePacket;
    SealedRoundTrip(a, Denied, 0, c.readKey, c.token.protocolId, 0, None, ALLOWED, Some(c.window));
  }

  /** An update in which a genuine denial comes: the client turns to the next server. */
  lemma DeniedUpdate(a: Aead, c: Client, t: ConnectToken, index: nat, since: real, heard: real, time: real)
    requires Lawful(a) && Responds(c, t, index, since, heard) && time < since + Lifetime(c) && c.serverAddress != NoAddress
    requires index + 1 < |t.servers|
    ensures Requests(Update(a, c, time, [From(a, c, Denied, 0)], 0), t, index + 1, time)
    ensures Update(a, c, time, [From(a, c, Denied, 0)], 0).time == time
  {
    var d := From(a, c, Denied, 0);
    var ticked := c.(time := time);
    UpdateInv(a, c, time, [d], 0);
    DeniedHeard(a, ticked);
    OneDatagram(a, ticked, d, 0);
    ReceiveAllKeepsAim(a, ticked, [d], 0);
    hide Lawful, WritePacket, Receive, ReceiveAll, SendPackets, ExpireSeconds, DisconnectInternal, Inv;
    SendKeeps(Receive(a, ticked, d, 0));
  }

  // ----- from server to server -----

  function Early(half: real, gap: real): real {
    if half > gap then half - gap else 0.0
  }

  /** A time to spend in each of the two states before a connection. */
  predicate Fitting(t: ConnectToken, half: real, gap: real) {
    && 0.0 < 2.0 * half < ExpireSeconds(t) as real && gap > 0.0
    && (t.timeoutSeconds > 0 ==> half <= t.timeoutSeconds as real + gap)
  }

  lemma AimedSomewhere(c: Client)
    requires Inv(c) && Live(c)
    ensures c.serverAddress != NoAddress
  {
    AimedFacts(c);
    hide Inv;
  }

  /** The client waits, and hears a challenge `half` after it turned to the server. */
  lemma HearsChallenge(a: Aead, c: Client, t: ConnectToken, index: nat, since: real, half: real, gap: real)
    returns (es: seq<Event>)
    requires Lawful(a) && Requests(c, t, index, since) && c.time == since && Fitting(t, half, gap)
    ensures Trying(a, c, es, gap) && Run(a, c, es).time == since + half
    ensures Responds(Run(a, c, es), t, index, since, since + half)
  {
    hide Inv, Trying, Run, ExpireSeconds, Update, From, Lawful;
    es := WaitsUntil(a, c, since + Early(half, gap), gap);
    var d := Run(a, c, es);
    assert Requests(d, t, index, since) && d.time == since + Early(half, gap);
    AimedSomewhere(d);
    var ds := [From(a, d, Challenge(0, ZERO_CHALLENGE_DATA), 0)];
    ChallengeUpdate(a, d, t, index, since, since + half);
    OneUpdate(a, d, since + half, ds, gap);
    TryingTwice(a, c, es, [UpdateEvent(since + half, ds, 0)], gap);
    es := es + [UpdateEvent(since + half, ds, 0)];
  }

  /** It waits again, and is denied as long after that. */
  lemma HearsDenial(a: Aead, c: Client, t: ConnectToken, index: nat, since: real, half: real, gap: real)
    returns (es: seq<Event>)
    requires Lawful(a) && Responds(c, t, index, since, since + half) && c.time == since + half && Fitting(t, half, gap)
    requires index + 1 < |t.servers|
    ensures Trying(a, c, es, gap) && Run(a, c, es).time == since + 2.0 * half
    ensures Requests(Run(a, c, es), t, index + 1, since + 2.0 * half)
  {
    hide Inv, Trying, Run, ExpireSeconds, Update, From, Lawful;
    es := WaitsUntil(a, c, since + half + Early(half, gap), gap);
    var d := Run(a, c, es);
    assert Responds(d, t, index, since, since + half) && d.time == since + half + Early(half, gap);
    AimedSomewhere(d);
    var ds := [From(a, d, Denied, 0)];
    DeniedUpdate(a, d, t, index, since, since + half, since + 2.0 * half);
    OneUpdate(a, d, since + 2.0 * half, ds, gap);
    TryingTwice(a, c, es, [UpdateEvent(since + 2.0 * half, ds, 0)], gap);
    es := es + [UpdateEvent(since + 2.0 * half, ds, 0)];
  }

  /** So it goes on from server to server, to the last one's challenge. */
  lemma {:induction false} Tours(a: Aead, c: Client, t: ConnectToken, index: nat, since: real, half: real, gap: real)
    returns (es: seq<Event>)
    requires Lawful(a) && Requests(c, t, index, since) && c.time == since && Fitting(t, half, gap)
    requires index < |t.servers|
    ensures var last := since + Span(|t.servers| - 1 - index, half, half);
            && Trying(a, c, es, gap) && Run(a, c, es).time == last + half
            && Responds(Run(a, c, es), t, |t.servers| - 1, last, last + half)
    decreases |t.servers| - index
  {
    hide Inv, Trying, Run, ExpireSeconds, Lawful, Requests, Responds, Span;
    es := HearsChallenge(a, c, t, index, since, half, gap);
    SpanNext(0, half, half);
    if index + 1 < |t.servers| {
      var d := Run(a, c, es);
      var denial := HearsDenial(a, d, t, index, since, half, gap);
      var e := Run(a, d, denial);
      TryingTwice(a, c, es, denial, gap);
      var rest := Tours(a, e, t, index + 1, since + 2.0 * half, half, gap);
      TryingTwice(a, c, es + denial, rest, gap);
      SpanNext(|t.servers| - 2 - index, half, half);
      es := es + denial + rest;
    }
  }

  // ----- exactly when -----

  /** A run of an attempt that began at `start`, never connected, and is under way later than the
      lifetime of its token. */
  ghost predicate Outlives(a: Aead, c: Client, es: seq<Event>, gap: real) {
    && Trying(a, c, es, gap)
    && var d := Run(a, c, es);
    d.state > DISCONNECTED && d.time > c.time + Lifetime(c)
  }

  /** There is another server, and the timeouts of all of them together leave time enough. */
  predicate MayOutlive(t: ConnectToken, gap: real) {
    && |t.servers| >= 2
    && (t.timeoutSeconds > 0 ==>
          Turns(|t.servers|, t.timeoutSeconds as real, gap) - gap > ExpireSeconds(t) as real)
  }

  /** A short lifetime leaves every server most of it. */
  lemma ShortOutlives(a: Aead, c: Client, t: ConnectToken, gap: real) returns (es: seq<Event>)
    requires Lawful(a) && Requests(c, t, 0, c.time) && gap > 0.0 && |t.servers| >= 2 && ExpireSeconds(t) > 0
    requires t.timeoutSeconds > 0 ==> 2.0 * (t.timeoutSeconds as real + gap) >= ExpireSeconds(t) as real
    ensures Outlives(a, c, es, gap)
  {
    var life := ExpireSeconds(t) as real;
    var half := 0.375 * life;
    hide Inv, Trying, Run, ExpireSeconds, Lawful, Span;
    es := Tours(a, c, t, 0, c.time, half, gap);
    SpanNext(0, half, half);
    SpanNext(1, half, half);
    WithinServersSpan(1, |t.servers| - 1, half);
  }

  lemma WithinServersSpan(k: nat, n: nat, x: real)
    requires k <= n && x >= 0.0
    ensures Span(k, x, x) <= Span(n, x, x)
  {
    ScaleMonotone(k as real, n as real, x + x);
  }

  /** With a longer one every server takes both timeouts, and the last but for the end. */
  lemma LongOutlives(a: Aead, c: Client, t: ConnectToken, gap: real) returns (es: seq<Event>)
    requires Lawful(a) && Requests(c, t, 0, c.time) && gap > 0.0 && MayOutlive(t, gap) && t.timeoutSeconds > 0
    requires 2.0 * (t.timeoutSeconds as real + gap) < ExpireSeconds(t) as real
    ensures Outlives(a, c, es, gap)
  {
    var half := t.timeoutSeconds as real + gap;
    hide Inv, Trying, Run, ExpireSeconds, Lawful, Span, Update;
    es := Tours(a, c, t, 0, c.time, half, gap);
    var last := c.time + Span(|t.servers| - 1, half, half);
    var d := Run(a, c, es);
    var rest := WaitsUntil(a, d, last + half + t.timeoutSeconds as real, gap);
    TryingTwice(a, c, es, rest, gap);
    SpanNext(|t.servers| - 1, half, half);
    es := es + rest;
  }

  lemma SecondPasses(size: nat)
    requires 0 < size <= TWO63
    ensures !AlreadyReceived(AlreadyReceived(Fresh(size), 0).1, 1).0
  {
  }

  lemma KeepAliveMovesWindow(a: Aead, c: Client)
    requires Lawful(a) && Live(c) && c.state == SENDING_RESPONSE && c.serverAddress != NoAddress
    requires !AlreadyReceived(c.window, 0).0
    ensures var d := Receive(a, c, From(a, c, KeepAlive(0, 0), 0), 0);
            && d.window == AlreadyReceived(c.window, 0).1 && d.token == c.token && d.readKey == c.readKey
            && d.serverAddress == c.serverAddress
  {
    hide Lawful, ReadPacket, WritePacket, AlreadyReceived;
    SealedRoundTrip(a, KeepAlive(0, 0), 0, c.readKey, c.token.protocolId, 0, None, ALLOWED, Some(c.window));
  }

  /** Challenge, keep-alive and disconnect of the server, received in one update. */
  lemma ThreeHeard(a: Aead, c: Client)
    requires Lawful(a) && Live(c) && c.state == SENDING_REQUEST && c.serverAddress != NoAddress
    requires c.window == Fresh(|c.window.received|)
    ensures var ds := [From(a, c, Challenge(0, ZERO_CHALLENGE_DATA), 0), From(a, c, KeepAlive(0, 0), 0),
                       From(a, c, Disconnect, 1)];
            var d := ReceiveAll(a, c, ds, 0);
            && d.state == CONNECTED && d.shouldDisconnect && !d.loopback && SameAim(c, d)
            && d.shouldDisconnectState == DISCONNECTED
  {
    var one, two, three :=
      From(a, c, Challenge(0, ZERO_CHALLENGE_DATA), 0), From(a, c, KeepAlive(0, 0), 0), From(a, c, Disconnect, 1);
    ReceiveAllKeepsAim(a, c, [one, two, three], 0);
    FreshPasses(|c.window.received|, 0);
    SecondPasses(|c.window.received|);
    hide Lawful, ReadPacket, WritePacket, AlreadyReceived, Receive, ReceiveAll, SameAim, Fresh;
    ThreeDatagrams(a, c, one, two, three);
    ChallengeHeard(a, c, 0, ZERO_CHALLENGE_DATA, 0, 0);
    var d := Receive(a, c, one, 0);
    KeepAliveHeard(a, d, 0, 0, 0, 0);
    KeepAliveMovesWindow(a, d);
    var e := Receive(a, d, two, 0);
    DisconnectHeard(a, e, 1, 0);
    AimStaysOpen(a, c, [one, two, three]);
  }

  lemma ThreeDatagrams(a: Aead, c: Client, x: Datagram, y: Datagram, z: Datagram)
    ensures ReceiveAll(a, c, [x, y, z], 0) == Receive(a, Receive(a, Receive(a, c, x, 0), y, 0), z, 0)
  {
    hide Receive;
    var d := Receive(a, c, x, 0);
    var e := Receive(a, d, y, 0);
    assert [x, y, z][1..] == [y, z] && [y, z][1..] == [z] && [z][1..] == [];
    assert ReceiveAll(a, c, [x, y, z], 0) == ReceiveAll(a, d, [y, z], 0);
    assert ReceiveAll(a, d, [y, z], 0) == ReceiveAll(a, e, [z], 0);
    assert ReceiveAll(a, e, [z], 0) == ReceiveAll(a, Receive(a, e, z, 0), [], 0);
  }

  lemma AimStaysOpen(a: Aead, c: Client, ds: seq<Datagram>)
    requires !c.loopback
    ensures !ReceiveAll(a, c, ds, 0).loopback
  {
    ReceiveAllKeepsAim(a, c, ds, 0);
  }

  /** A token that has run out when it is presented: the client can still be taken on and let go by
      its first server within one update, and then turns to the second. */
  lemma ZeroOutlives(a: Aead, c: Client, t: ConnectToken, gap: real) returns (es: seq<Event>)
    requires Lawful(a) && Requests(c, t, 0, c.time) && gap > 0.0 && |t.servers| >= 2 && ExpireSeconds(t) == 0
    ensures Outlives(a, c, es, gap)
  {
    hide Lawful, ExpireSeconds, Inv, From, Update, Trying, Run, Fresh;
    AimedSomewhere(c);
    var ds := [From(a, c, Challenge(0, ZERO_CHALLENGE_DATA), 0), From(a, c, KeepAlive(0, 0), 0), From(a, c, Disconnect, 1)];
    TakenAndLetGo(a, c, t, c.time + gap);
    OneUpdate(a, c, c.time + gap, ds, gap);
    es := [UpdateEvent(c.time + gap, ds, 0)];
  }

  lemma TakenAndLetGo(a: Aead, c: Client, t: ConnectToken, time: real)
    requires Lawful(a) && Requests(c, t, 0, c.time) && |t.servers| >= 2 && c.serverAddress != NoAddress
    ensures var ds := [From(a, c, Challenge(0, ZERO_CHALLENGE_DATA), 0), From(a, c, KeepAlive(0, 0), 0),
                       From(a, c, Disconnect, 1)];
            var d := Update(a, c, time, ds, 0);
            d.state == SENDING_REQUEST && d.time == time
  {
    var ticked := c.(time := time);
    var ds := [From(a, ticked, Challenge(0, ZERO_CHALLENGE_DATA), 0), From(a, ticked, KeepAlive(0, 0), 0),
               From(a, ticked, Disconnect, 1)];
    assert ds == [From(a, c, Challenge(0, ZERO_CHALLENGE_DATA), 0), From(a, c, KeepAlive(0, 0), 0), From(a, c, Disconnect, 1)];
    hide Lawful, WritePacket, ReceiveAll, SendPackets, ExpireSeconds, DisconnectInternal, Inv, From;
    ThreeHeard(a, ticked);
    SendKeeps(ReceiveAll(a, ticked, ds, 0));
  }

  /** A token cannot be outlived otherwise. */
  lemma NotOutlived(a: Aead, c: Client, tokenData: bytes, es: seq<Event>, gap: real)
    requires Inv(c) && !c.loopback && ReadConnect(tokenData).Some? && gap > 0.0
    requires Outlives(a, ConnectWith(c, tokenData), es, gap)
    ensures MayOutlive(ReadConnect(tokenData).value, gap)
  {
    hide ConnectWith, ReadConnect, ExpireSeconds, Trying, Inv, Span, Aimed, Enabled;
    var t := ReadConnect(tokenData).value;
    ConnectFacts(c, tokenData);
    ConnectingEnds(a, c, tokenData, es, gap);
    SpanNext(0, t.timeoutSeconds as real + gap, t.timeoutSeconds as real + gap);
    SpanNext(0, ExpireSeconds(t) as real, gap);
    if t.timeoutSeconds > 0 {
      TryingOnPace(a, ConnectWith(c, tokenData), es, c.time, gap);
      PaceBound(Run(a, ConnectWith(c, tokenData), es), c.time, gap);
    }
  }

  lemma PaceBound(d: Client, start: real, gap: real)
    requires Inv(d) && OnPace(d, start, gap) && d.state > DISCONNECTED && gap >= 0.0
    ensures |d.token.servers| > 0 && d.time <= start + Turns(|d.token.servers|, Timeout(d), gap) - gap
  {
    AimedFacts(d);
    WithinServersSpan(d.serverIndex, |d.token.servers| - 1, Timeout(d) + gap);
    SpanNext(|d.token.servers| - 1, Timeout(d) + gap, Timeout(d) + gap);
    hide Inv, Span;
  }

  /** An attempt to connect can outlive the lifetime of its token, with updates at most `gap` apart,
      if and only if the token lists a second server and either sets no timeout or the timeouts of
      all its servers, with the gaps, add up to more than the lifetime. */
  lemma TokenOutlived(a: Aead, c: Client, tokenData: bytes, gap: real)
    requires Lawful(a) && Inv(c) && !c.loopback && ReadConnect(tokenData).Some? && gap > 0.0
    ensures (exists es: seq<Event> :: Outlives(a, ConnectWith(c, tokenData), es, gap))
            <==> MayOutlive(ReadConnect(tokenData).value, gap)
  {
    hide ConnectWith, ReadConnect, ExpireSeconds, Inv, Outlives, Lawful, Turns;
    var t := ReadConnect(tokenData).value;
    var d := ConnectWith(c, tokenData);
    if MayOutlive(t, gap) {
      ConnectRequests(c, tokenData);
      var es;
      if ExpireSeconds(t) == 0 {
        es := ZeroOutlives(a, d, t, gap);
      } else if t.timeoutSeconds > 0 && 2.0 * (t.timeoutSeconds as real + gap) < ExpireSeconds(t) as real {
        es := LongOutlives(a, d, t, gap);
      } else {
        es := ShortOutlives(a, d, t, gap);
      }
      assert Outlives(a, d, es, gap);
    }
    if es :| Outlives(a, d, es, gap) {
      NotOutlived(a, c, tokenData, es, gap);
    }
  }

  lemma ConnectRequests(c: Client, tokenData: bytes)
    requires Inv(c) && !c.loopback && ReadConnect(tokenData).Some?
    ensures Requests(ConnectWith(c, tokenData), ReadConnect(tokenData).value, 0, ConnectWith(c, tokenData).time)
  {
    ConnectFacts(c, tokenData);
    hide DisconnectInternal, ReadConnect, Inv;
  }
}
