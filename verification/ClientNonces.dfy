/** When two sealed packets of a client carry the same key and sequence number: exactly when two of
    the tokens it is given have the same key. */
module ClientNonces {
  import opened Types
  import opened Crypto
  import opened Tokens
  import opened Packets
  import opened Queue
  import opened Traces
  import opened Memory
  import opened Inbox
  import opened Client
  import opened ClientRuns

  /** `used` are the keys of the tokens presented so far. */
  ghost predicate Fresh(c: Client, used: set<Key>) {
    var sent := Sealings(c.trace);
    NeverWraps(c.trace, 0) ==>
      && AllDistinct(sent)
      && (forall x :: x in sent ==> x.key in used)
      && (Live(c) ==>
            && c.writeKey in used
            && (forall x :: x in sent && x.key == c.writeKey ==> x.sequence < |SentSince(c.trace, 0)|))
  }

  /** A step that seals nothing, and neither rekeys nor revives the client. */
  ghost predicate Calm(c: Client, d: Client) {
    && Sealings(d.trace) == Sealings(c.trace) && (NeverWraps(d.trace, 0) ==> NeverWraps(c.trace, 0))
    && (Live(d) ==> Live(c) && d.writeKey == c.writeKey && SentSince(d.trace, 0) == SentSince(c.trace, 0))
  }

  lemma CalmFresh(c: Client, d: Client, used: set<Key>)
    requires Fresh(c, used) && Calm(c, d)
    ensures Fresh(d, used)
  {
    hide Sealings, SentSince, NeverWraps, AllDistinct;
  }

  // ----- sending -----

  predicate Numbered(c: Client) {
    c.sequence == |SentSince(c.trace, 0)| % TWO64
  }

  lemma SendFresh(c: Client, p: Packet, used: set<Key>)
    requires Fresh(c, used) && Live(c) && c.serverAddress != NoAddress && Numbered(c)
    ensures Fresh(SendToServer(c, p), used) && Numbered(SendToServer(c, p))
  {
    var d := SendToServer(c, p);
    var x := Sealing(c.writeKey, c.sequence);
    assert SentSince(d.trace, 0) == SentSince(c.trace, 0) + [c.sequence];
    assert NeverWraps(d.trace, 0) ==> NeverWraps(c.trace, 0) && |SentSince(d.trace, 0)| <= TWO64;
    assert Sealings(d.trace) == if p.Request? then Sealings(c.trace) else Sealings(c.trace) + [x];
    hide Sealings, SentSince, NeverWraps, AllDistinct;
    if NeverWraps(d.trace, 0) {
      NewSealing(Sealings(c.trace), x);
    }
  }

  lemma SendKeepsLive(c: Client, p: Packet)
    ensures Live(c) <==> Live(SendToServer(c, p))
    ensures SendToServer(c, p).serverAddress == c.serverAddress
  {
  }

  lemma {:induction false} SendDisconnectsFresh(c: Client, n: nat, used: set<Key>)
    requires Fresh(c, used) && Live(c) && c.serverAddress != NoAddress && Numbered(c)
    ensures Fresh(SendDisconnects(c, n), used)
    decreases n
  {
    hide Fresh, SendToServer, Numbered;
    if n > 0 {
      SendFresh(c, Disconnect, used);
      SendKeepsLive(c, Disconnect);
      SendDisconnectsFresh(SendToServer(c, Disconnect), n - 1, used);
    }
  }

  // ----- steps that send nothing -----

  lemma ResetCalm(c: Client, state: int)
    requires state <= DISCONNECTED
    ensures Calm(c, ResetConnectionData(c, state))
  {
    var reset := ResetBeforeNextConnect(SetState(ForgetConnection(c), state));
    DrainElsewhere(Box(reset), 0, 0);
    PopAllExtends(Box(reset), 0);
    var d := ResetConnectionData(c, state);
    if NeverWraps(d.trace, 0) {
      WrappedBefore(reset.trace, d.trace, 0);
    }
    hide Drain;
  }

  lemma HandleCalm(c: Client, from: Address, p: Packet)
    ensures Calm(c, Handle(c, from, p))
  {
  }

  lemma DeliverCalm(c: Client, from: Address, reading: Reading)
    ensures Calm(c, Deliver(c, from, reading))
  {
    if reading.Some? {
      var (p, q) := reading.value;
      var (id, memory) := Alloc(c.memory);
      var seen := c.(memory := memory, trace := Then(c.trace, Processed(from, p, q, Some(c.readKey))));
      HandleCalm(seen, from, p);
      if p.Payload? {
        EnqueueEffect(Box(seen), 0, from, Item(id, p.data, q));
      }
      hide Handle, Enqueue;
    }
  }

  lemma {:induction false} ReceiveAllCalm(a: Aead, c: Client, ds: seq<Datagram>, now: uint64)
    ensures Calm(c, ReceiveAll(a, c, ds, now))
    decreases |ds|
  {
    hide ReadPacket, Deliver;
    if ds != [] {
      var (reading, moved) :=
        ReadPacket(a, ds[0].data, Some(c.readKey), c.token.protocolId, now, None, ALLOWED, Some(c.window));
      DeliverCalm(c.(window := moved.value), ds[0].from, reading);
      ReceiveAllCalm(a, Receive(a, c, ds[0], now), ds[1..], now);
    }
  }

  // ----- whole steps -----

  lemma DisconnectFresh(c: Client, destination: int, sendPackets: bool, used: set<Key>)
    requires Fresh(c, used) && destination <= DISCONNECTED && !c.loopback
    requires Live(c) ==> c.serverAddress != NoAddress && Numbered(c)
    ensures Fresh(DisconnectInternal(c, destination, sendPackets), used)
  {
    hide Fresh, SendDisconnects, ResetConnectionData;
    if c.state > DISCONNECTED {
      var d := if sendPackets then SendDisconnects(c, NUM_DISCONNECT_PACKETS) else c;
      if sendPackets {
        SendDisconnectsFresh(c, NUM_DISCONNECT_PACKETS, used);
      }
      ResetCalm(d, destination);
      CalmFresh(d, ResetConnectionData(d, destination), used);
    }
  }

  lemma FailOverFresh(c: Client, state: int, used: set<Key>)
    requires Fresh(c, used) && Live(c) && state <= DISCONNECTED && c.serverAddress != NoAddress && Numbered(c)
    ensures Fresh(FailOver(c, state), used)
  {
    hide Fresh, DisconnectInternal;
    DisconnectFresh(c, state, false, used);
    var (moved, d) := ConnectToNextServer(c);
    if moved {
      CalmFresh(c, d, used);
    }
  }

  lemma AimedAtServer(c: Client)
    requires Inv(c)
    ensures Numbered(c) && (Live(c) ==> c.serverAddress != NoAddress)
    ensures c.shouldDisconnect ==> c.shouldDisconnectState <= DISCONNECTED
    ensures c.state <= DISCONNECTED ==> c.sequence == 0 && !c.shouldDisconnect && !c.loopback
  {
    AimedFacts(c);
    hide Inv;
  }

  lemma DeadlinesFresh(c: Client, used: set<Key>)
    requires Inv(c) && Fresh(c, used) && !c.loopback
    ensures Fresh(CheckDeadlines(c), used)
  {
    AimedAtServer(c);
    hide Fresh, DisconnectInternal, FailOver, Inv;
    DisconnectFresh(c, CONNECT_TOKEN_EXPIRED, false, used);
    DisconnectFresh(c, CONNECTION_TIMED_OUT, false, used);
    if Live(c) {
      if c.shouldDisconnect {
        FailOverFresh(c, c.shouldDisconnectState, used);
      }
      FailOverFresh(c, REQUEST_TIMED_OUT, used);
      FailOverFresh(c, RESPONSE_TIMED_OUT, used);
    }
  }

  lemma SendPacketsFresh(c: Client, used: set<Key>)
    requires Inv(c) && Fresh(c, used) && !c.loopback
    ensures Fresh(SendPackets(c), used)
  {
    AimedAtServer(c);
    hide Fresh, SendToServer, Inv;
    if Live(c) {
      SendFresh(c, RequestPacket(c), used);
      SendFresh(c, Response(c.challengeSequence, c.challengeData), used);
      SendFresh(c, KeepAlive(0, 0), used);
    }
  }

  lemma UpdateFresh(a: Aead, c: Client, time: real, ds: seq<Datagram>, now: uint64, used: set<Key>)
    requires Inv(c) && Fresh(c, used)
    ensures Fresh(Update(a, c, time, ds, now), used)
  {
    var ticked := c.(time := time);
    TimeInv(c, time);
    assert Calm(c, ticked);
    CalmFresh(c, ticked, used);
    hide Inv, Fresh, Calm, ReceiveAll, SendPackets, CheckDeadlines;
    if !c.loopback {
      ReceiveAllInv(a, ticked, ds, now);
      ReceiveAllCalm(a, ticked, ds, now);
      var received := ReceiveAll(a, ticked, ds, now);
      CalmFresh(ticked, received, used);
      SendPacketsInv(received);
      SendPacketsFresh(received, used);
      DeadlinesFresh(SendPackets(received), used);
    }
  }

  /** Connecting takes a key into use. */
  function KeysAfter(e: Event, used: set<Key>): set<Key> {
    if e.ConnectEvent? && ReadConnect(e.tokenData).Some? then used + {ReadConnect(e.tokenData).value.clientToServerKey}
    else used
  }

  predicate KeyIsNew(e: Event, used: set<Key>) {
    e.ConnectEvent? && ReadConnect(e.tokenData).Some? ==>
      ReadConnect(e.tokenData).value.clientToServerKey !in used
  }

  lemma RekeyFresh(c: Client, d: Client, used: set<Key>)
    requires Fresh(c, used) && d.writeKey !in used && Sealings(d.trace) == Sealings(c.trace)
    requires NeverWraps(d.trace, 0) ==> NeverWraps(c.trace, 0)
    ensures Fresh(d, used + {d.writeKey})
  {
  }

  lemma ConnectFresh(c: Client, tokenData: bytes, used: set<Key>)
    requires Inv(c) && !c.loopback && Fresh(c, used) && KeyIsNew(ConnectEvent(tokenData), used)
    ensures Fresh(ConnectWith(c, tokenData), KeysAfter(ConnectEvent(tokenData), used))
  {
    AimedAtServer(c);
    DisconnectFresh(c, DISCONNECTED, true, used);
    DisconnectInv(c, DISCONNECTED, true);
    var idle := DisconnectInternal(c, DISCONNECTED, true);
    AimedAtServer(idle);
    assert !Live(idle);
    hide DisconnectInternal, ReadConnect, Inv, Fresh, SetState, ResetBeforeNextConnect;
    match ReadConnect(tokenData)
    case None =>
      StateCalm(idle, INVALID_CONNECT_TOKEN);
      CalmFresh(idle, SetState(idle, INVALID_CONNECT_TOKEN), used);
    case Some(t) =>
      var aimed := idle.(token := t, serverIndex := 0, serverAddress := t.servers[0],
                         readKey := t.serverToClientKey, writeKey := t.clientToServerKey);
      RequestingSealsNothing(aimed);
      RekeyFresh(idle, SetState(ResetBeforeNextConnect(aimed), SENDING_REQUEST), used);
  }

  lemma StateCalm(c: Client, state: int)
    requires !Live(c) && state <= DISCONNECTED
    ensures Calm(c, SetState(c, state))
  {
  }

  lemma RequestingSealsNothing(c: Client)
    ensures var d := SetState(ResetBeforeNextConnect(c), SENDING_REQUEST);
            && Sealings(d.trace) == Sealings(c.trace) && d.writeKey == c.writeKey
            && (NeverWraps(d.trace, 0) ==> NeverWraps(c.trace, 0))
  {
  }

  lemma CallFresh(a: Aead, c: Client, e: Event, used: set<Key>)
    requires Inv(c) && Fresh(c, used) && Enabled(c, e)
    requires e.SendEvent? || e.ReceiveEvent? || e.FreeEvent? || e.ConnectLoopbackEvent? || e.LoopbackPacketEvent?
    ensures Fresh(Step(a, c, e), used)
  {
    AimedAtServer(c);
    if e.SendEvent? && Live(c) {
      hide Fresh, Inv;
      SendFresh(c, Payload(e.data), used);
    } else {
      CallCalm(a, c, e);
      hide Step, Calm, Fresh, Inv;
      CalmFresh(c, Step(a, c, e), used);
    }
  }

  lemma CallCalm(a: Aead, c: Client, e: Event)
    requires !(e.SendEvent? && Live(c)) && (c.state <= DISCONNECTED ==> !c.loopback)
    requires e.SendEvent? || e.ReceiveEvent? || e.FreeEvent? || e.ConnectLoopbackEvent? || e.LoopbackPacketEvent?
    ensures Calm(c, Step(a, c, e))
  {
    if e.ReceiveEvent? {
      DequeueEffect(Box(c), 0);
    } else if e.LoopbackPacketEvent? {
      EnqueueEffect(Inbox(c.queue, Alloc(c.memory).1, c.trace), 0, NoAddress, Item(c.memory.next, e.data, e.sequence));
    }
    hide Dequeue, Enqueue, SendToServer;
  }

  lemma StepFresh(a: Aead, c: Client, e: Event, used: set<Key>)
    requires Inv(c) && Fresh(c, used) && Enabled(c, e) && KeyIsNew(e, used)
    ensures Fresh(Step(a, c, e), KeysAfter(e, used))
  {
    AimedAtServer(c);
    hide Fresh, Inv, Update, ConnectWith, DisconnectInternal, ResetConnectionData, SendPayload, ReceivePayload,
         ConnectLoopback, ProcessLoopback, ReadConnect;
    match e
    case ConnectEvent(tokenData) => ConnectFresh(c, tokenData, used);
    case UpdateEvent(time, datagrams, now) => UpdateFresh(a, c, time, datagrams, now, used);
    case DisconnectEvent => DisconnectFresh(c, DISCONNECTED, true, used);
    case DisconnectLoopbackEvent =>
      ResetCalm(c, DISCONNECTED);
      CalmFresh(c, ResetConnectionData(c, DISCONNECTED), used);
    case _ => CallFresh(a, c, e, used);
  }

  /** No two readable tokens of the run's connect calls have the same key, nor one of those in use. */
  ghost predicate KeysOnce(es: seq<Event>, used: set<Key>)
    decreases |es|
  {
    es == [] || (KeyIsNew(es[0], used) && KeysOnce(es[1..], KeysAfter(es[0], used)))
  }

  lemma {:induction false} RunFresh(a: Aead, c: Client, es: seq<Event>, used: set<Key>) returns (after: set<Key>)
    requires Inv(c) && !c.shouldDisconnect && Fresh(c, used) && EnabledRun(a, c, es) && KeysOnce(es, used)
    ensures Fresh(Run(a, c, es), after)
    decreases |es|
  {
    hide Inv, Fresh, Step, Enabled, KeyIsNew;
    if es == [] {
      after := used;
    } else {
      StepInv(a, c, es[0]);
      StepFresh(a, c, es[0], used);
      after := RunFresh(a, Step(a, c, es[0]), es[1..], KeysAfter(es[0], used));
    }
  }

  // ----- what is presented to the client -----

  /** The keys of the readable tokens. */
  function TokenKeys(datas: seq<bytes>): seq<Key> {
    if datas == [] then []
    else
      match ReadConnect(datas[0])
      case None => TokenKeys(datas[1..])
      case Some(t) => [t.clientToServerKey] + TokenKeys(datas[1..])
  }

  /** The tokens of a run's connect calls. */
  function Presented(es: seq<Event>): seq<bytes> {
    if es == [] then []
    else if es[0].ConnectEvent? then [es[0].tokenData] + Presented(es[1..])
    else Presented(es[1..])
  }

  /** No key occurs twice, and none is in use. */
  ghost predicate KeysApart(ks: seq<Key>, used: set<Key>) {
    KeysDiffer(ks) && (forall k :: k in ks ==> k !in used)
  }

  lemma KeysApartNext(k: Key, ks: seq<Key>, used: set<Key>)
    ensures KeysApart([k] + ks, used) <==> k !in used && KeysApart(ks, used + {k})
  {
    var all := [k] + ks;
    assert all[0] == k && forall i :: 0 <= i < |ks| ==> all[i + 1] == ks[i];
    if KeysApart(all, used) {
      forall i, j | 0 <= i < j < |ks|
        ensures ks[i] != ks[j]
      {
        assert all[i + 1] != all[j + 1];
      }
      forall x | x in ks
        ensures x != k && x !in used
      {
        var i :| 0 <= i < |ks| && ks[i] == x;
        assert all[i + 1] == x && all[0] != all[i + 1];
      }
    }
    if k !in used && KeysApart(ks, used + {k}) {
      forall i, j | 0 <= i < j < |all|
        ensures all[i] != all[j]
      {
        assert all[j] in ks;
      }
    }
  }

  lemma {:induction false} PresentedOnce(es: seq<Event>, used: set<Key>)
    ensures KeysOnce(es, used) <==> KeysApart(TokenKeys(Presented(es)), used)
    decreases |es|
  {
    hide ReadConnect, KeysApart;
    if es == [] {
      assert KeysApart([], used) by {
        NoKeys(used);
      }
    } else {
      PresentedOnce(es[1..], KeysAfter(es[0], used));
      if es[0].ConnectEvent? {
        assert Presented(es)[1..] == Presented(es[1..]);
        if ReadConnect(es[0].tokenData).Some? {
          KeysApartNext(ReadConnect(es[0].tokenData).value.clientToServerKey, TokenKeys(Presented(es[1..])), used);
        }
      }
    }
  }

  lemma NoKeys(used: set<Key>)
    ensures KeysApart([], used) && KeysApart(TokenKeys([]), used)
  {
  }

  /** When the tokens have different keys. */
  lemma DifferentKeysOnce(a: Aead, start: real, es: seq<Event>)
    requires EnabledRun(a, Create(start), es) && KeysDiffer(TokenKeys(Presented(es)))
    requires NeverWraps(Run(a, Create(start), es).trace, 0)
    ensures AllDistinct(Sealings(Run(a, Create(start), es).trace))
  {
    CreateInv(start);
    PresentedOnce(es, {});
    hide Run, EnabledRun, KeysOnce, Inv, TokenKeys;
    assert KeysOnce(es, {});
    var after := RunFresh(a, Create(start), es, {});
  }

  // ----- two tokens with one key -----

  function Dropped(c: Client): Client {
    DisconnectInternal(c, DISCONNECTED, true)
  }

  /** The run that presents the tokens one after the other, and then disconnects. */
  function Presenting(datas: seq<bytes>): (es: seq<Event>)
    ensures es != []
  {
    if datas == [] then [DisconnectEvent] else [ConnectEvent(datas[0])] + Presenting(datas[1..])
  }

  /** A client between two calls of that run. */
  ghost predicate Between(c: Client) {
    Inv(c) && !c.loopback && !c.shouldDisconnect && SentSince(c.trace, 0) == [] && NeverWraps(c.trace, 0)
  }

  lemma {:induction false} SendDisconnectsNumbers(c: Client, n: nat)
    requires NeverWraps(c.trace, 0) && |SentSince(c.trace, 0)| + n <= TWO64
    ensures NeverWraps(SendDisconnects(c, n).trace, 0) && Extends(c.trace, SendDisconnects(c, n).trace)
    decreases n
  {
    if n > 0 {
      var d := SendToServer(c, Disconnect);
      SendDisconnectsNumbers(d, n - 1);
      ExtendsByOne(c.trace, c.trace, d.trace.last);
      ExtendsTwice(c.trace, d.trace, SendDisconnects(d, n - 1).trace);
    }
  }

  /** The first of the disconnect packets is sealed with number 0. */
  lemma DisconnectSeals(c: Client)
    requires Live(c) && c.serverAddress != NoAddress && c.sequence == 0 && NeverWraps(c.trace, 0)
    requires SentSince(c.trace, 0) == []
    ensures SealsSince(c.trace, SendDisconnects(c, NUM_DISCONNECT_PACKETS).trace, Sealing(c.writeKey, 0))
    ensures NeverWraps(SendDisconnects(c, NUM_DISCONNECT_PACKETS).trace, 0)
  {
    var d := SendToServer(c, Disconnect);
    assert SendDisconnects(c, NUM_DISCONNECT_PACKETS) == SendDisconnects(d, NUM_DISCONNECT_PACKETS - 1);
    assert SentSince(d.trace, 0) == [0] && NeverWraps(d.trace, 0);
    assert Sealings(d.trace) == Sealings(c.trace) + [Sealing(c.writeKey, 0)];
    SendDisconnectsNumbers(d, NUM_DISCONNECT_PACKETS - 1);
    hide SendDisconnects;
    SealingsExtend(d.trace, SendDisconnects(d, NUM_DISCONNECT_PACKETS - 1).trace);
    hide Sealings;
    assert Sealings(d.trace)[|Sealings(c.trace)|] == Sealing(c.writeKey, 0);
  }

  lemma ResetSeals(c: Client, state: int)
    requires state <= DISCONNECTED && NeverWraps(c.trace, 0)
    ensures var d := ResetConnectionData(c, state);
            Sealings(d.trace) == Sealings(c.trace) && SentSince(d.trace, 0) == [] && NeverWraps(d.trace, 0)
  {
    var reset := ResetBeforeNextConnect(SetState(ForgetConnection(c), state));
    DrainElsewhere(Box(reset), 0, 0);
    PopAllNeverWraps(Box(reset), 0);
    hide PopAll;
  }

  lemma {:induction false} PopAllNeverWraps(b: Inbox, slot: int)
    requires NeverWraps(b.trace, slot)
    ensures NeverWraps(PopAll(b, slot).trace, slot)
    decreases b.queue.num
  {
    PopContents(b.queue);
    var (item, rest) := Pop(b.queue);
    if item.Some? {
      var e := Discarded(slot, item.value);
      assert SentSince(Then(b.trace, e), slot) == SentSince(b.trace, slot) && |SentSince(b.trace, slot)| <= TWO64 by {
        WrapBound(b.trace, slot);
      }
      PopAllNeverWraps(Inbox(rest, Free(b.memory, item.value.id), Then(b.trace, e)), slot);
    }
  }

  lemma WrapBound(t: Trace, slot: int)
    requires NeverWraps(t, slot)
    ensures |SentSince(t, slot)| <= TWO64
  {
  }

  /** Dropping the connection of a client that was just given a token. */
  lemma DropBetween(c: Client)
    requires Between(c)
    ensures Between(Dropped(c)) && Dropped(c).state <= DISCONNECTED
    ensures Sealings(c.trace) <= Sealings(Dropped(c).trace)
    ensures Live(c) ==> SealsSince(c.trace, Dropped(c).trace, Sealing(c.writeKey, 0))
    ensures !Live(c) ==> Dropped(c) == c
  {
    AimedAtServer(c);
    DisconnectInv(c, DISCONNECTED, true);
    AimedAtServer(Dropped(c));
    hide Inv, SendDisconnects, ResetConnectionData, SentSince, NeverWraps, Sealings;
    if Live(c) {
      assert c.sequence == 0;
      DisconnectSeals(c);
      ResetSeals(SendDisconnects(c, NUM_DISCONNECT_PACKETS), DISCONNECTED);
    }
  }

  /** Presenting a token: a readable one leaves the client live under its key. */
  lemma ConnectBetween(c: Client, tokenData: bytes)
    requires Between(c)
    ensures var d := ConnectWith(c, tokenData);
            && Between(d) && Sealings(d.trace) == Sealings(Dropped(c).trace)
            && (ReadConnect(tokenData).Some? ==>
                  Live(d) && d.writeKey == ReadConnect(tokenData).value.clientToServerKey)
            && (ReadConnect(tokenData).None? ==> !Live(d))
  {
    DropBetween(c);
    ConnectInv(c, tokenData);
    var d := ConnectWith(c, tokenData);
    ConnectEffect(Dropped(c), d);
    AimedAtServer(d);
    hide Inv, DisconnectInternal, ReadConnect, Sealings, SentSince, NeverWraps;
  }

  lemma ConnectEffect(c: Client, d: Client)
    requires d.trace.Then? && d.trace.past == c.trace && d.trace.last.Changed?
    requires SentSince(c.trace, 0) == [] && NeverWraps(c.trace, 0)
    ensures Sealings(d.trace) == Sealings(c.trace) && SentSince(d.trace, 0) == [] && NeverWraps(d.trace, 0)
  {
  }

  lemma {:induction false} PresentingRuns(a: Aead, c: Client, datas: seq<bytes>)
    requires Between(c)
    ensures EnabledRun(a, c, Presenting(datas)) && Presented(Presenting(datas)) == datas
    decreases |datas|
  {
    if datas == [] {
      LastDrop(a, c);
    } else {
      ConnectBetween(c, datas[0]);
      hide Between, EnabledRun, Run, ConnectWith;
      PresentingRuns(a, ConnectWith(c, datas[0]), datas[1..]);
      FirstToken(a, c, datas[0], Presenting(datas[1..]));
    }
  }

  /** What the rest of the run repeats: a key presented before, or one of its own. */
  lemma {:induction false} PresentingRepeats(a: Aead, c: Client, datas: seq<bytes>, used: set<Key>)
    requires Between(c) && (forall k :: k in used ==> Sealing(k, 0) in Sealings(Dropped(c).trace))
    ensures var d := Run(a, c, Presenting(datas));
            && NeverWraps(d.trace, 0) && Sealings(Dropped(c).trace) <= Sealings(d.trace)
            && (!KeysApart(TokenKeys(datas), used) ==> !AllDistinct(Sealings(d.trace)))
    decreases |datas|
  {
    hide Inv, ReadConnect, ConnectWith, DisconnectInternal, Sealings, KeysApart, NeverWraps, SentSince, AllDistinct,
         EnabledRun, Run, Dropped, TokenKeys, SealsSince, Between, Step, Enabled, KeysAfter, Presented;
    if datas == [] {
      DropBetween(c);
      BetweenWraps(Dropped(c));
      NoKeys(used);
      LastDrop(a, c);
    } else {
      var d := ConnectWith(c, datas[0]);
      TokenSeals(c, datas[0], used);
      PresentingRepeats(a, d, datas[1..], KeysAfter(ConnectEvent(datas[0]), used));
      PresentingRuns(a, d, datas[1..]);
      FirstToken(a, c, datas[0], Presenting(datas[1..]));
      TokenRepeats(Dropped(c).trace, Dropped(d).trace, Run(a, d, Presenting(datas[1..])).trace, datas, used);
    }
  }

  /** What presenting a token comes to once the client is dropped again. */
  lemma TokenSeals(c: Client, data: bytes, used: set<Key>)
    requires Between(c) && (forall k :: k in used ==> Sealing(k, 0) in Sealings(Dropped(c).trace))
    ensures var d := ConnectWith(c, data);
            var read := ReadConnect(data);
            && Between(d) && Sealings(Dropped(c).trace) <= Sealings(Dropped(d).trace)
            && (read.Some? ==> SealsSince(Dropped(c).trace, Dropped(d).trace, Sealing(read.value.clientToServerKey, 0)))
            && (forall k :: k in KeysAfter(ConnectEvent(data), used) ==> Sealing(k, 0) in Sealings(Dropped(d).trace))
  {
    hide Inv, ReadConnect, ConnectWith, DisconnectInternal, Sealings, NeverWraps, SentSince, Dropped, Between, SealsSince;
    var d := ConnectWith(c, data);
    ConnectBetween(c, data);
    DropBetween(d);
    var read := ReadConnect(data);
    if read.Some? {
      SealsAfterAll(Dropped(c).trace, d.trace, Dropped(d).trace, Sealing(read.value.clientToServerKey, 0));
    }
    KeysStaySealed(Dropped(c), d, used, read);
  }

  lemma BetweenWraps(c: Client)
    requires Between(c)
    ensures NeverWraps(c.trace, 0)
  {
    hide Inv;
  }

  lemma TokenRepeats(t: Trace, u: Trace, v: Trace, datas: seq<bytes>, used: set<Key>)
    requires datas != [] && (forall k :: k in used ==> Sealing(k, 0) in Sealings(t))
    requires Sealings(t) <= Sealings(u) <= Sealings(v)
    requires var read := ReadConnect(datas[0]);
             && (read.Some? ==> SealsSince(t, u, Sealing(read.value.clientToServerKey, 0)))
             && (!KeysApart(TokenKeys(datas[1..]), KeysAfter(ConnectEvent(datas[0]), used)) ==> !AllDistinct(Sealings(v)))
    ensures !KeysApart(TokenKeys(datas), used) ==> !AllDistinct(Sealings(v))
  {
    hide Sealings, KeysApart, AllDistinct, ReadConnect, SealsSince;
    var read := ReadConnect(datas[0]);
    if read.Some? {
      KeysApartNext(read.value.clientToServerKey, TokenKeys(datas[1..]), used);
      if read.value.clientToServerKey in used {
        SealedTwice(t, u, v, Sealing(read.value.clientToServerKey, 0));
      }
    }
  }

  lemma FirstToken(a: Aead, c: Client, data: bytes, es: seq<Event>)
    requires Between(c) && EnabledRun(a, ConnectWith(c, data), es)
    ensures var all := [ConnectEvent(data)] + es;
            && EnabledRun(a, c, all) && Run(a, c, all) == Run(a, ConnectWith(c, data), es)
            && Presented(all) == [data] + Presented(es)
  {
    assert ([ConnectEvent(data)] + es)[1..] == es;
    hide Inv, ConnectWith;
  }

  lemma LastDrop(a: Aead, c: Client)
    requires Between(c)
    ensures EnabledRun(a, c, [DisconnectEvent]) && Run(a, c, [DisconnectEvent]) == Dropped(c)
    ensures Presented([DisconnectEvent]) == []
  {
    hide Inv, DisconnectInternal;
    assert [DisconnectEvent][1..] == [];
    assert EnabledRun(a, Dropped(c), []) && Run(a, Dropped(c), []) == Dropped(c);
  }

  lemma SealsAfterAll(t: Trace, u: Trace, v: Trace, x: Sealing)
    requires Sealings(u) == Sealings(t) && SealsSince(u, v, x)
    ensures SealsSince(t, v, x)
  {
    hide Sealings;
  }

  lemma KeysStaySealed(c: Client, d: Client, used: set<Key>, read: Option<ConnectToken>)
    requires forall k :: k in used ==> Sealing(k, 0) in Sealings(c.trace)
    requires Sealings(c.trace) <= Sealings(Dropped(d).trace)
    requires read.Some? ==>
               SealsSince(c.trace, Dropped(d).trace, Sealing(read.value.clientToServerKey, 0))
    ensures forall k :: k in (if read.Some? then used + {read.value.clientToServerKey} else used) ==>
              Sealing(k, 0) in Sealings(Dropped(d).trace)
  {
    hide Sealings, DisconnectInternal;
  }

  lemma SealedTwice(t: Trace, u: Trace, v: Trace, x: Sealing)
    requires x in Sealings(t) && SealsSince(t, u, x) && Sealings(u) <= Sealings(v)
    ensures !AllDistinct(Sealings(v))
  {
    hide Sealings;
    var i :| 0 <= i < |Sealings(t)| && Sealings(t)[i] == x;
    var j :| |Sealings(t)| <= j < |Sealings(u)| && Sealings(u)[j] == x;
    assert Sealings(v)[i] == x && Sealings(v)[j] == x;
  }

  /** For the tokens a client is given, in the order of the connect calls: whatever else the
      application and the network do, no two packets the client seals carry the same key and sequence
      number, if and only if the readable tokens have different keys.  No connection may send more
      than 2^64 packets. */
  lemma NoncesOnce(a: Aead, start: real, datas: seq<bytes>)
    ensures (forall es: seq<Event> ::
               EnabledRun(a, Create(start), es) && Presented(es) == datas
               && NeverWraps(Run(a, Create(start), es).trace, 0) ==>
                 AllDistinct(Sealings(Run(a, Create(start), es).trace)))
            <==> KeysDiffer(TokenKeys(datas))
  {
    hide Run, EnabledRun, AllDistinct, Sealings, NeverWraps, TokenKeys;
    if KeysDiffer(TokenKeys(datas)) {
      forall es: seq<Event> | EnabledRun(a, Create(start), es) && Presented(es) == datas
                              && NeverWraps(Run(a, Create(start), es).trace, 0)
        ensures AllDistinct(Sealings(Run(a, Create(start), es).trace))
      {
        DifferentKeysOnce(a, start, es);
      }
    } else {
      CreateBetween(start);
      PresentingRuns(a, Create(start), datas);
      PresentingRepeats(a, Create(start), datas, {});
      assert EnabledRun(a, Create(start), Presenting(datas));
    }
  }

  lemma CreateBetween(start: real)
    ensures Between(Create(start))
  {
    CreateInv(start);
  }
}
