/** Where the packets a server processed came from: each was read from a datagram of the run, and each
    queued payload was read under the key of the client that held the slot. */
module ServerReadings {
  import opened Types
  import opened Crypto
  import opened Tokens
  import opened Packets
  import opened Replay
  import opened Queue
  import opened Traces
  import opened Memory
  import opened Inbox
  import opened Server
  import opened ServerTables
  import opened ServerNonces
  import M = Mappings
  import H = TokenHistory

  /** The queued payload is the packet processed just before, read under the holder's key. */
  predicate Matches(past: Trace, e: Effect) {
    e.Queued? && e.from != NoAddress ==>
      && CarriesLastPayload(past, e.from, e.item)
      && Holder(past, e.slot).Some? && past.last.readKey == Some(Holder(past, e.slot).value.receive)
  }

  predicate Matched(t: Trace) {
    t.Then? ==> Matched(t.past) && Matches(t.past, t.last)
  }

  // ----- steps that read nothing -----

  /** Nothing was read. */
  predicate Unread(t: Trace, u: Trace) {
    Readings(u) == Readings(t) && (Matched(t) ==> Matched(u))
  }

  ghost predicate Uneventful(t: Trace, u: Trace) {
    Unread(t, u) && Unsaid(t, u)
  }

  ghost predicate Blind(s: ServerState, r: ServerState) {
    && Uneventful(s.trace, r.trace) && |r.slots| == |s.slots|
    && r.protocolId == s.protocolId && r.privateKey == s.privateKey
  }

  lemma BlindTwice(s: ServerState, r: ServerState, u: ServerState)
    requires Blind(s, r) && Blind(r, u)
    ensures Blind(s, u)
  {
    hide Readings, Matched;
  }

  lemma BlindItself(s: ServerState)
    ensures Blind(s, s) && Blind(s, s.(fault := true))
  {
  }

  lemma OneMore(t: Trace, e: Effect)
    requires !e.Processed? && Matches(t, e) && !e.Handed? && !CarriesPayload(e)
    ensures Uneventful(t, Then(t, e))
  {
  }

  lemma SendGlobalBlind(s: ServerState, to: Address, p: Packet, key: Key)
    requires !p.Payload?
    ensures Blind(s, SendGlobal(s, to, p, key))
  {
    OneMore(s.trace, SendGlobal(s, to, p, key).trace.last);
    hide Uneventful;
  }

  lemma SendBlind(s: ServerState, i: nat, p: Packet)
    requires i < |s.slots| && !p.Payload?
    ensures Blind(s, SendClient(s, i, p))
  {
    var r := SendClient(s, i, p);
    BlindItself(s);
    if r.trace != s.trace {
      OneMore(s.trace, r.trace.last);
    }
    hide Uneventful, M.Touch;
  }

  lemma {:induction false} SendDisconnectsBlind(s: ServerState, i: nat, n: nat)
    requires i < |s.slots|
    ensures Blind(s, SendDisconnects(s, i, n))
    decreases n
  {
    BlindItself(s);
    hide Blind, SendClient;
    if n > 0 {
      SendBlind(s, i, Disconnect);
      SendDisconnectsBlind(SendClient(s, i, Disconnect), i, n - 1);
      BlindTwice(s, SendClient(s, i, Disconnect), SendDisconnects(s, i, n));
    }
  }

  lemma {:induction false} PopAllReads(b: Inbox, slot: int)
    ensures Uneventful(b.trace, PopAll(b, slot).trace)
    decreases b.queue.num
  {
    PopContents(b.queue);
    var (item, rest) := Pop(b.queue);
    if item.Some? {
      var e := Discarded(slot, item.value);
      OneMore(b.trace, e);
      PopAllReads(Inbox(rest, Free(b.memory, item.value.id), Then(b.trace, e)), slot);
    }
  }

  lemma ReleaseBlind(s: ServerState, i: nat)
    requires i < |s.slots|
    ensures Blind(s, Release(s, i))
  {
    PopAllReads(Box(s, i), i);
    OneMore(PopAll(Box(s, i), i).trace, Released(i));
    hide PopAll, M.Remove, Readings, Matched;
  }

  lemma DisconnectBlind(s: ServerState, i: nat, sendPackets: bool)
    requires i < |s.slots|
    ensures Blind(s, DisconnectInternal(s, i, sendPackets))
  {
    BlindItself(s);
    hide Blind, SendDisconnects, Release;
    SendDisconnectsBlind(s, i, NUM_DISCONNECT_PACKETS);
    var d := if sendPackets then SendDisconnects(s, i, NUM_DISCONNECT_PACKETS) else s;
    ReleaseBlind(d, i);
    BlindTwice(s, d, Release(d, i));
  }

  lemma {:induction false} DisconnectFromBlind(s: ServerState, i: nat)
    requires i <= s.maxClients
    ensures Blind(s, DisconnectFrom(s, i))
    decreases s.maxClients - i
  {
    BlindItself(s);
    hide Blind, DisconnectInternal;
    if i < s.maxClients {
      var r := if Remote(s.slots[i]) then DisconnectInternal(s, i, true) else s;
      DisconnectBlind(s, i, true);
      DisconnectFromBlind(r, i + 1);
      BlindTwice(s, r, DisconnectFrom(s, i));
    }
  }

  lemma StopBlind(s: ServerState)
    ensures Blind(s, Stop(s))
  {
    BlindItself(s);
    DisconnectFromBlind(s, 0);
    OneMore(DisconnectFrom(s, 0).trace, Stopped);
    hide DisconnectFrom, Readings, Matched;
  }

  lemma StartBlind(s: ServerState, max: nat, key: Key)
    requires max <= |s.slots|
    ensures Blind(s, Start(s, max, key))
  {
    StopBlind(s);
    OneMore(Stop(s).trace, Started);
    hide Stop, Readings, Matched;
  }

  lemma RequestBlind(a: Aead, s: ServerState, from: Address, data: PrivateData)
    ensures Blind(s, ProcessRequest(a, s, from, data))
  {
    BlindItself(s);
    var noted := AskHistory(s, from, RequestMac(data)).1;
    OneMore(s.trace, Shown(from, RequestMac(data), s.time));
    assert Blind(s, noted);
    hide ReadPrivate, M.Add, H.FindOrAdd, RequestAcceptable, SendGlobal, Uneventful, SealChallenge;
    if ReadPrivate(data).Some? {
      var t := ReadPrivate(data).value;
      SendGlobalBlind(noted, from, Denied, t.serverToClientKey);
      var (added, m) := M.Add(s.mappings, RequestMapping(s, from, t), s.time);
      var mapped := noted.(mappings := m);
      BlindItself(noted);
      ChallengeBlind(a, mapped, from, t);
      BlindTwice(s, noted, SendGlobal(noted, from, Denied, t.serverToClientKey));
      hide SendChallenge;
      BlindTwice(s, mapped, SendChallenge(a, mapped, from, t));
    }
  }

  lemma ChallengeBlind(a: Aead, s: ServerState, from: Address, t: PrivateToken)
    ensures Blind(s, SendChallenge(a, s, from, t))
  {
    hide SealChallenge;
    BlindItself(s);
    var r := SendChallenge(a, s, from, t);
    if r != s {
      OneMore(s.trace, r.trace.past.last);
      OneMore(r.trace.past, r.trace.last);
    }
    hide Readings, Matched;
  }

  lemma ConnectBlind(s: ServerState, i: nat, from: Address, id: uint64, e: int, timeout: int32, userData: UserData)
    requires i < |s.slots|
    ensures Blind(s, ConnectClient(s, i, from, id, e, timeout, userData))
  {
    BlindItself(s);
    if s.numConnected + 1 <= s.maxClients && !s.slots[i].connected && 0 <= e < s.mappings.num {
      var joined := Seat(s, i, Taken(s, s.slots[i], from, id, e, timeout, userData));
      OneMore(s.trace, joined.trace.last);
      assert Blind(s, joined) by {
        hide Uneventful;
      }
      SendBlind(joined, i, KeepAlivePacket(joined, i));
      hide Blind, SendClient, Seat;
      BlindTwice(s, joined, SendClient(joined, i, KeepAlivePacket(joined, i)));
    }
  }

  lemma ResponseBlind(a: Aead, s: ServerState, from: Address, sequence: uint64, data: ChallengeData, index: int)
    ensures Blind(s, ProcessResponse(a, s, from, sequence, data, index))
  {
    BlindItself(s);
    hide OpenChallenge, ConnectClient, Blind, FindById, FindByAddress, FindFree, SendGlobal;
    var answer := OpenChallenge(a, data, sequence, s.challengeKey);
    if answer.Some? && 0 <= index < s.mappings.num {
      var e := s.mappings.entries[index];
      SendGlobalBlind(s, from, Denied, e.sendKey);
      var i := FindFree(s.slots, 0, s.maxClients);
      if i < s.maxClients {
        ConnectBlind(s, i, from, answer.value.clientId, index, e.timeout, answer.value.userData);
      }
    }
  }

  lemma HandleBlind(a: Aead, s: ServerState, from: Address, p: Packet, index: int, client: nat)
    requires client <= |s.slots|
    ensures Blind(s, Handle(a, s, from, p, index, client))
  {
    BlindItself(s);
    hide Uneventful, ProcessRequest, ProcessResponse, DisconnectInternal;
    match p
    case Request(_, _, _, _, data) => RequestBlind(a, s, from, data);
    case Response(n, data) => ResponseBlind(a, s, from, n, data, index);
    case Disconnect => if client < |s.slots| { DisconnectBlind(s, client, false); }
    case _ =>
  }

  // ----- a datagram -----

  /** The packet was read from this datagram. */
  ghost predicate ReadFrom(a: Aead, protocolId: uint64, privateKey: Key, d: Datagram, now: uint64, e: Effect) {
    && e.Processed? && e.from == d.from
    && exists w: Option<Window> ::
         ReadPacket(a, d.data, e.readKey, protocolId, now, Some(privateKey), ALLOWED, w).0 == Some((e.packet, e.sequence))
  }

  /** Processing a packet adds it to the readings, and nothing else. */
  ghost predicate Reads(s: ServerState, r: ServerState, e: Effect) {
    && e.Processed? && Readings(r.trace) == Readings(s.trace) + [e] && (Matched(s.trace) ==> Matched(r.trace))
    && Unsaid(s.trace, r.trace)
    && |r.slots| == |s.slots| && r.protocolId == s.protocolId && r.privateKey == s.privateKey
  }

  lemma ReadsThenBlind(s: ServerState, r: ServerState, u: ServerState, e: Effect)
    requires Reads(s, r, e) && Blind(r, u)
    ensures Reads(s, u, e)
  {
    hide Readings, Matched;
  }

  lemma SeenReads(s: ServerState, m: Ledger, e: Effect)
    requires e.Processed?
    ensures Reads(s, s.(memory := m, trace := Then(s.trace, e)), e)
  {
  }

  /** A payload read under a client's mapping is queued under its holder's key. */
  lemma PayloadMatches(s: ServerState, from: Address, p: Packet, q: uint64, index: int, client: nat, id: nat)
    requires Locked(s) && Routed(s, from, index, client) && client < |s.slots| && p.Payload?
    ensures Matches(Then(s.trace, Processed(from, p, q, KeyAt(s, index))), Queued(client, from, Item(id, p.data, q)))
  {
    hide M.Live;
  }

  lemma DeliverReads(a: Aead, s: ServerState, from: Address, p: Packet, q: uint64, index: int, client: nat)
    requires Locked(s) && Routed(s, from, index, client)
    ensures Reads(s, Deliver(a, s, from, Some((p, q)), index, client), Processed(from, p, q, KeyAt(s, index)))
  {
    hide Routed, Locked, Handle, Uneventful;
    var (id, memory) := Alloc(s.memory);
    var e := Processed(from, p, q, KeyAt(s, index));
    var seen := s.(memory := memory, trace := Then(s.trace, e));
    assert client <= |s.slots| by {
      RoutedClient(s, from, index, client);
    }
    SeenReads(s, memory, e);
    hide Reads;
    if p.Payload? && client < |s.slots| {
      var heard := Hear(seen, client);
      var item := Item(id, p.data, q);
      var b := Enqueue(Box(heard, client), client, from, item);
      PayloadMatches(s, from, p, q, index, client, id);
      EnqueueEffect(Box(heard, client), client, from, item);
      OneMore(seen.trace, b.trace.last);
      hide Enqueue, Matches;
      assert Blind(seen, WithBox(heard, client, b));
      ReadsThenBlind(s, seen, WithBox(heard, client, b), e);
    } else {
      HandleBlind(a, seen, from, p, index, client);
      var done := Handle(a, seen, from, p, index, client);
      ReadsThenBlind(s, seen, done.(memory := Free(done.memory, id)), e);
    }
  }

  lemma RoutedClient(s: ServerState, from: Address, index: int, client: nat)
    requires Routed(s, from, index, client)
    ensures client <= |s.slots|
  {
    hide M.Live;
  }

  /** Whatever was processed in between was read from one of the datagrams. */
  ghost predicate Hears(a: Aead, s: ServerState, r: ServerState, ds: seq<Datagram>, now: uint64) {
    && (Matched(s.trace) ==> Matched(r.trace)) && Unsaid(s.trace, r.trace)
    && |r.slots| == |s.slots| && r.protocolId == s.protocolId && r.privateKey == s.privateKey
    && (forall e :: e in Readings(r.trace) ==> e in Readings(s.trace) || FromOne(a, s.protocolId, s.privateKey, ds, now, e))
  }

  ghost predicate FromOne(a: Aead, protocolId: uint64, privateKey: Key, ds: seq<Datagram>, now: uint64, e: Effect) {
    exists d :: d in ds && ReadFrom(a, protocolId, privateKey, d, now, e)
  }

  lemma BlindHears(a: Aead, s: ServerState, r: ServerState, ds: seq<Datagram>, now: uint64)
    requires Blind(s, r)
    ensures Hears(a, s, r, ds, now)
  {
    hide Readings, Matched, FromOne;
  }

  lemma ReadsHears(a: Aead, s: ServerState, r: ServerState, d: Datagram, now: uint64, e: Effect)
    requires Reads(s, r, e) && ReadFrom(a, s.protocolId, s.privateKey, d, now, e)
    ensures Hears(a, s, r, [d], now)
  {
    hide Readings, Matched, ReadFrom;
    assert d in [d];
  }

  lemma HearsTwice(a: Aead, s: ServerState, r: ServerState, u: ServerState, ds: seq<Datagram>, es: seq<Datagram>, now: uint64)
    requires Hears(a, s, r, ds, now) && Hears(a, r, u, es, now)
    ensures Hears(a, s, u, ds + es, now)
  {
    hide Readings, Matched, ReadFrom;
    forall e | e in Readings(u.trace)
      ensures e in Readings(s.trace) || FromOne(a, s.protocolId, s.privateKey, ds + es, now, e)
    {
      if e in Readings(r.trace) && e !in Readings(s.trace) {
        var d :| d in ds && ReadFrom(a, s.protocolId, s.privateKey, d, now, e);
        assert d in ds + es;
      } else if e !in Readings(r.trace) {
        var d :| d in es && ReadFrom(a, s.protocolId, s.privateKey, d, now, e);
        assert d in ds + es;
      }
    }
  }

  lemma RouteBlind(s: ServerState, from: Address)
    ensures Blind(s, s.(mappings := Route(s, from).2))
  {
    BlindItself(s);
    hide FindByAddress, Uneventful;
  }

  lemma WindowBlind(s: ServerState, client: nat, w: Option<Window>)
    ensures var r := PutWindow(s, client, w);
            && Blind(s, r) && r.mappings == s.mappings && r.protocolId == s.protocolId && r.privateKey == s.privateKey
            && |r.slots| == |s.slots|
  {
    BlindItself(s);
    hide Uneventful;
  }

  lemma ReceiveHears(a: Aead, s: ServerState, d: Datagram, now: uint64)
    requires Lawful(a) && Tables(s) && Nonces(s)
    ensures Hears(a, s, Receive(a, s, d, now), [d], now)
  {
    hide Lawful, Tables, Blind, Route, Read, Deliver, PutWindow, Routed, Hears, Nonces, Still, KeyAt;
    BlindItself(s);
    BlindHears(a, s, s, [d], now);
    if s.running && |d.data| > 1 {
      RouteTables(s, d.from);
      RouteStill(s, d.from);
      RouteBlind(s, d.from);
      var (client, index, m) := Route(s, d.from);
      var routed := s.(mappings := m);
      BlindHears(a, s, routed, [d], now);
      StillNonces(s, routed);
      if !(index == -1 && d.data[0] != 0) {
        var key := if index == -1 then None else Some(m.entries[index].receiveKey);
        var (reading, w) := Read(a, s, d, now, client, key);
        var moved := PutWindow(routed, client, w);
        PutWindowTables(routed, client, w, d.from, index);
        WindowStill(routed, client, w);
        WindowBlind(routed, client, w);
        StillNonces(routed, moved);
        BlindTwice(s, routed, moved);
        BlindHears(a, s, moved, [], now);
        KeyOfRoute(moved, index, m);
        ReadingHears(a, s, moved, d, now, client, index, key);
        HearsTwice(a, s, moved, Deliver(a, moved, d.from, reading, index, client), [], [d], now);
        assert [] + [d] == [d];
      }
    }
  }

  lemma KeyOfRoute(moved: ServerState, index: int, m: M.Manager)
    requires index != -1 ==> 0 <= index < m.num <= |m.entries|
    requires moved.mappings == m
    ensures KeyAt(moved, index) == if 0 <= index < |m.entries| then Some(m.entries[index].receiveKey) else None
  {
  }

  lemma ReadingHears(a: Aead, s: ServerState, moved: ServerState, d: Datagram, now: uint64, client: nat, index: int,
                     key: Option<Key>)
    requires Nonces(moved) && Routed(moved, d.from, index, client) && key == KeyAt(moved, index)
    requires moved.protocolId == s.protocolId && moved.privateKey == s.privateKey
    ensures Hears(a, moved, Deliver(a, moved, d.from, Read(a, s, d, now, client, key).0, index, client), [d], now)
  {
    hide Routed, Blind, Hears, Deliver, ReadPacket, ReadWindow, Reads;
    var reading := Read(a, s, d, now, client, key).0;
    BlindItself(moved);
    BlindHears(a, moved, moved, [d], now);
    NothingRead(a, moved, d.from, index, client);
    if reading.Some? {
      var (p, q) := reading.value;
      NoncesLocked(moved);
      DeliverReads(a, moved, d.from, p, q, index, client);
      var e := Processed(d.from, p, q, KeyAt(moved, index));
      assert ReadPacket(a, d.data, e.readKey, s.protocolId, now, Some(s.privateKey), ALLOWED, ReadWindow(s, client)).0
          == Some((e.packet, e.sequence));
      assert ReadFrom(a, moved.protocolId, moved.privateKey, d, now, e);
      ReadsHears(a, moved, Deliver(a, moved, d.from, reading, index, client), d, now, e);
    }
  }

  lemma NoncesLocked(s: ServerState)
    requires Nonces(s)
    ensures Locked(s)
  {
    hide Locked, Good, Paid;
  }

  lemma NothingRead(a: Aead, s: ServerState, from: Address, index: int, client: nat)
    requires Routed(s, from, index, client)
    ensures client <= |s.slots| && Deliver(a, s, from, None, index, client) == s
  {
    hide M.Live;
  }

  lemma {:induction false} ReceiveAllHears(a: Aead, s: ServerState, ds: seq<Datagram>, now: uint64)
    requires Lawful(a) && Tables(s) && Nonces(s)
    ensures Hears(a, s, ReceiveAll(a, s, ds, now), ds, now)
    decreases |ds|
  {
    hide Lawful, Tables, Nonces, Receive, Hears;
    if ds == [] {
      BlindItself(s);
      BlindHears(a, s, s, [], now);
    } else {
      var r := Receive(a, s, ds[0], now);
      ReceiveHears(a, s, ds[0], now);
      ReceiveTables(a, s, ds[0], now);
      ReceiveNonces(a, s, ds[0], now);
      ReceiveAllHears(a, r, ds[1..], now);
      HearsTwice(a, s, r, ReceiveAll(a, r, ds[1..], now), [ds[0]], ds[1..], now);
      assert [ds[0]] + ds[1..] == ds;
    }
  }

  lemma {:induction false} SendFromBlind(s: ServerState, i: nat)
    requires i <= s.maxClients
    ensures Blind(s, SendFrom(s, i))
    decreases s.maxClients - i
  {
    BlindItself(s);
    hide Blind, SendClient;
    if i < s.maxClients {
      var r := if KeepAliveDue(s, s.slots[i]) then SendClient(s, i, KeepAlivePacket(s, i)) else s;
      SendBlind(s, i, KeepAlivePacket(s, i));
      SendFromBlind(r, i + 1);
      BlindTwice(s, r, SendFrom(s, i));
    }
  }

  lemma UpdateHears(a: Aead, s: ServerState, time: real, ds: seq<Datagram>, now: uint64)
    requires Lawful(a) && Tables(s) && RecentlySent(s) && OnTime(s, time) && Nonces(s)
    ensures Hears(a, s, Update(a, s, time, ds, now), ds, now)
  {
    var ticked := s.(time := time);
    TickTables(s, time);
    SameNonces(s, ticked);
    BlindItself(s);
    assert Blind(s, ticked);
    hide Lawful, Tables, RecentlySent, OnTime, Nonces, ReceiveAll, SendFrom, DisconnectInternal, Hears, Blind;
    BlindHears(a, s, ticked, [], now);
    ReceiveAllHears(a, ticked, ds, now);
    var received := ReceiveAll(a, ticked, ds, now);
    HearsTwice(a, s, ticked, received, [], ds, now);
    assert [] + ds == ds;
    BlindItself(received);
    SendFromBlind(received, 0);
    var sent := SendPackets(received);
    var i := FindTimedOut(sent, 0, sent.maxClients);
    BlindItself(sent);
    if i < sent.maxClients {
      DisconnectBlind(sent, i, false);
    }
    BlindTwice(received, sent, CheckTimeouts(sent));
    BlindHears(a, received, CheckTimeouts(sent), [], now);
    HearsTwice(a, s, received, CheckTimeouts(sent), ds, [], now);
    assert ds + [] == ds;
  }

  // ----- the application's calls -----

  /** A step that reads nothing, whatever else it does. */
  ghost predicate Deaf(s: ServerState, r: ServerState) {
    && Unread(s.trace, r.trace) && |r.slots| == |s.slots|
    && r.protocolId == s.protocolId && r.privateKey == s.privateKey
  }

  /** What a send call of the application adds to the payloads sent. */
  ghost function GivenNow(s: ServerState, e: Event, i: int): seq<Sending> {
    if e.SendEvent? && e.slot == i && s.running && e.slot < |s.slots| && Remote(s.slots[e.slot])
       && 0 <= s.slots[e.slot].encryptionIndex < |s.mappings.entries| then
      var x := s.slots[e.slot];
      [Sending(e.data, if x.confirmed then x.sequence else Inc64(x.sequence),
               s.mappings.entries[x.encryptionIndex].sendKey, s.protocolId)]
    else []
  }

  /** What a receive call hands to the application. */
  ghost function TakenNow(s: ServerState, e: Event): seq<Handing> {
    if e.ReceiveEvent? && s.running && e.slot < |s.slots| && s.slots[e.slot].connected
       && Contents(s.slots[e.slot].queue) != [] then [Handing(e.slot, Contents(s.slots[e.slot].queue)[0])]
    else []
  }

  /** The payloads handed over and sent since. */
  ghost predicate Says(t: Trace, u: Trace, taken: seq<Handing>, i: int, given: seq<Sending>) {
    Handings(u) == Handings(t) + taken && PayloadsTo(u, i) == PayloadsTo(t, i) + given
  }

  lemma PayloadSays(s: ServerState, i: nat, data: bytes, j: int)
    requires Tables(s) && (s.running ==> i < |s.slots|)
    ensures Deaf(s, SendPayload(s, i, data))
    ensures Says(s.trace, SendPayload(s, i, data).trace, [], j, GivenNow(s, SendEvent(i, data), j))
  {
    BlindItself(s);
    if s.running && s.slots[i].connected {
      if s.slots[i].loopback {
        hide Tables, SendClient;
      } else {
        hide Tables, SendClient, Deaf, Says;
        RemoteSays(s, i, data, j);
      }
    } else {
      assert PayloadsTo(s.trace, j) + [] == PayloadsTo(s.trace, j);
    }
  }

  lemma RemoteSays(s: ServerState, i: nat, data: bytes, j: int)
    requires Tables(s) && s.running && i < |s.slots| && Remote(s.slots[i])
    ensures Deaf(s, SendPayload(s, i, data))
    ensures Says(s.trace, SendPayload(s, i, data).trace, [], j, GivenNow(s, SendEvent(i, data), j))
  {
    BlindItself(s);
    var first := if s.slots[i].confirmed then s else SendClient(s, i, KeepAlivePacket(s, i));
    SendBlind(s, i, KeepAlivePacket(s, i));
    SendMappings(s, i, KeepAlivePacket(s, i));
    SendClientTables(s, i, KeepAlivePacket(s, i));
    SendMappings(first, i, Payload(data));
    SendClientTables(first, i, Payload(data));
    hide Tables, SendClient;
    var r := SendPayload(s, i, data);
    assert r == SendClient(first, i, Payload(data));
    PayloadEffect(first.trace, r.trace.last, j);
    assert Readings(r.trace) == Readings(first.trace) && (Matched(first.trace) ==> Matched(r.trace));
    hide Readings, Matched, Handings, PayloadsTo, PayloadsSent;
  }

  lemma PayloadEffect(t: Trace, e: Effect, j: int)
    requires CarriesPayload(e)
    ensures var u := Then(t, e);
            && Handings(u) == Handings(t) && Unread(t, u)
            && PayloadsTo(u, j) == PayloadsTo(t, j) + (if e.slot == j then [SendingOf(e)] else [])
  {
  }

  /** What a receive call returns is what it hands over. */
  lemma ReturnsOldest(s: ServerState, i: nat)
    requires s.running ==> i < |s.slots|
    ensures var item := ReceivePayload(s, i).0;
            TakenNow(s, ReceiveEvent(i)) == if item.Some? then [Handing(i, item.value)] else []
  {
    if s.running && s.slots[i].connected {
      PopContents(s.slots[i].queue);
      hide Contents, Pop;
    }
  }

  lemma TakeSays(s: ServerState, i: nat, j: int)
    requires s.running ==> i < |s.slots|
    ensures Deaf(s, ReceivePayload(s, i).1)
    ensures Says(s.trace, ReceivePayload(s, i).1.trace, TakenNow(s, ReceiveEvent(i)), j, [])
  {
    BlindItself(s);
    if s.running && s.slots[i].connected {
      PopContents(s.slots[i].queue);
      hide Contents, Pop;
    }
  }

  lemma LoopbackBlind(s: ServerState, i: nat, id: uint64, userData: UserData, data: bytes, q: uint64)
    requires i < |s.slots|
    ensures Blind(s, ConnectLoopback(s, i, id, userData))
    ensures Blind(s, DisconnectLoopback(s, i))
    ensures Blind(s, ProcessLoopback(s, i, data, q))
  {
    OneMore(s.trace, ConnectLoopback(s, i, id, userData).trace.last);
    PopAllReads(Box(s, i), i);
    OneMore(PopAll(Box(s, i), i).trace, Released(i));
    var r := ProcessLoopback(s, i, data, q);
    EnqueueEffect(Inbox(s.slots[i].queue, Alloc(s.memory).1, s.trace), i, NoAddress, Item(Alloc(s.memory).0, data, q));
    OneMore(s.trace, r.trace.last);
    hide PopAll, Enqueue, Readings, Matched;
  }

  lemma CallBlind(a: Aead, s: ServerState, e: Event)
    requires Enabled(s, e) && !e.UpdateEvent? && !e.SendEvent? && !e.ReceiveEvent?
    ensures Blind(s, Step(a, s, e))
  {
    BlindItself(s);
    hide Uneventful, Start, Stop, SendPayload, ReceivePayload, DisconnectInternal, DisconnectFrom, ConnectLoopback,
         DisconnectLoopback, ProcessLoopback;
    match e
    case StartEvent(max, key) => StartBlind(s, max, key);
    case StopEvent => StopBlind(s);
    case FreeEvent(id) =>
    case DisconnectEvent(i) => if s.running { DisconnectBlind(s, i, true); }
    case DisconnectAllEvent => DisconnectFromBlind(s, 0);
    case ConnectLoopbackEvent(i, id, userData) => LoopbackBlind(s, i, id, userData, [], 0);
    case DisconnectLoopbackEvent(i) => LoopbackBlind(s, i, 0, ZERO_USER_DATA, [], 0);
    case LoopbackPacketEvent(i, data, q) => LoopbackBlind(s, i, 0, ZERO_USER_DATA, data, q);
  }

  // ----- runs -----

  /** The packet was read from a datagram of the run. */
  ghost predicate FromRun(a: Aead, protocolId: uint64, privateKey: Key, es: seq<Event>, e: Effect) {
    exists i :: 0 <= i < |es| && es[i].UpdateEvent? && FromOne(a, protocolId, privateKey, es[i].datagrams, es[i].now, e)
  }

  lemma FromRest(a: Aead, protocolId: uint64, privateKey: Key, es: seq<Event>, e: Effect)
    requires es != [] && FromRun(a, protocolId, privateKey, es[1..], e)
    ensures FromRun(a, protocolId, privateKey, es, e)
  {
    hide FromOne;
    var i :| 0 <= i < |es[1..]| && es[1..][i].UpdateEvent?
             && FromOne(a, protocolId, privateKey, es[1..][i].datagrams, es[1..][i].now, e);
    assert es[i + 1] == es[1..][i];
  }

  /** In every orderly run each processed packet was read from a datagram of the run, and each queued
      payload under the key of the client that held the slot. */
  lemma {:induction false} RunReadings(a: Aead, s: ServerState, es: seq<Event>)
    requires Lawful(a) && Tables(s) && RecentlySent(s) && Nonces(s) && OrderlyRun(a, s, es) && Matched(s.trace)
    ensures var r := Run(a, s, es);
            && Matched(r.trace) && |r.slots| == |s.slots| && r.protocolId == s.protocolId
            && (forall e :: e in Readings(r.trace) ==>
                  e in Readings(s.trace) || FromRun(a, s.protocolId, s.privateKey, es, e))
    decreases |es|
  {
    hide Lawful, Tables, RecentlySent, Nonces, Step, Orderly, Enabled, Matched, Readings, FromOne, FromRun;
    if es != [] {
      var r := Step(a, s, es[0]);
      StepNonces(a, s, es[0]);
      StepTables(a, s, es[0]);
      StepHears(a, s, es[0]);
      RunReadings(a, r, es[1..]);
      forall e | e in Readings(Run(a, s, es).trace)
        ensures e in Readings(s.trace) || FromRun(a, s.protocolId, s.privateKey, es, e)
      {
        if e !in Readings(r.trace) {
          FromRest(a, s.protocolId, s.privateKey, es, e);
        } else if e !in Readings(s.trace) {
          FromFirst(a, s.protocolId, s.privateKey, es, e);
        }
      }
    }
  }

  lemma FromFirst(a: Aead, protocolId: uint64, privateKey: Key, es: seq<Event>, e: Effect)
    requires es != [] && es[0].UpdateEvent? && FromOne(a, protocolId, privateKey, es[0].datagrams, es[0].now, e)
    ensures FromRun(a, protocolId, privateKey, es, e)
  {
    hide FromOne;
  }

  lemma StepHears(a: Aead, s: ServerState, e: Event)
    requires Lawful(a) && Tables(s) && RecentlySent(s) && Nonces(s) && Enabled(s, e) && Orderly(s, e)
    ensures var r := Step(a, s, e);
            && (Matched(s.trace) ==> Matched(r.trace))
            && |r.slots| == |s.slots| && r.protocolId == s.protocolId && r.privateKey == s.privateKey
            && (forall x :: x in Readings(r.trace) ==>
                  x in Readings(s.trace)
                  || (e.UpdateEvent? && FromOne(a, s.protocolId, s.privateKey, e.datagrams, e.now, x)))
  {
    hide Lawful, Tables, RecentlySent, Nonces, Matched, Readings, FromOne, OnTime, SendPayload, ReceivePayload, Unsaid, Says;
    if e.UpdateEvent? {
      UpdateHears(a, s, e.time, e.datagrams, e.now);
      hide Update;
    } else if e.SendEvent? {
      PayloadSays(s, e.slot, e.data, 0);
    } else if e.ReceiveEvent? {
      TakeSays(s, e.slot, 0);
    } else {
      CallBlind(a, s, e);
      hide Step, Enabled;
    }
  }

  /** Each call hands over and sends the payloads the application asked for, and no others. */
  lemma StepSays(a: Aead, s: ServerState, e: Event, i: int)
    requires Lawful(a) && Tables(s) && RecentlySent(s) && Nonces(s) && Enabled(s, e) && Orderly(s, e)
    ensures Says(s.trace, Step(a, s, e).trace, TakenNow(s, e), i, GivenNow(s, e, i))
  {
    hide Lawful, Tables, RecentlySent, Nonces, OnTime, SendPayload, ReceivePayload, Unread;
    if e.UpdateEvent? {
      UpdateHears(a, s, e.time, e.datagrams, e.now);
      hide Update;
    } else if e.SendEvent? {
      PayloadSays(s, e.slot, e.data, i);
    } else if e.ReceiveEvent? {
      TakeSays(s, e.slot, i);
    } else {
      CallBlind(a, s, e);
      hide Step, Enabled;
    }
  }

  /** What the application took over a run, and what it gave to send to a slot. */
  ghost function TakenOver(a: Aead, s: ServerState, es: seq<Event>): seq<Handing>
    requires OrderlyRun(a, s, es)
    decreases |es|
  {
    if es == [] then [] else TakenNow(s, es[0]) + TakenOver(a, Step(a, s, es[0]), es[1..])
  }

  ghost function GivenOver(a: Aead, s: ServerState, es: seq<Event>, i: int): seq<Sending>
    requires OrderlyRun(a, s, es)
    decreases |es|
  {
    if es == [] then [] else GivenNow(s, es[0], i) + GivenOver(a, Step(a, s, es[0]), es[1..], i)
  }

  /** Over every orderly run, the payloads sealed for a slot are those of the send calls made while a
      client on the network held it, in order, and the payloads handed over are those of the receive
      calls, each the oldest in its queue. */
  lemma {:induction false} RunSays(a: Aead, s: ServerState, es: seq<Event>, i: int)
    requires Lawful(a) && Tables(s) && RecentlySent(s) && Nonces(s) && OrderlyRun(a, s, es)
    ensures Says(s.trace, Run(a, s, es).trace, TakenOver(a, s, es), i, GivenOver(a, s, es, i))
    decreases |es|
  {
    hide Lawful, Tables, RecentlySent, Nonces, Step, Orderly, Enabled, GivenNow, TakenNow;
    if es != [] {
      StepSays(a, s, es[0], i);
      StepNonces(a, s, es[0]);
      StepTables(a, s, es[0]);
      RunSays(a, Step(a, s, es[0]), es[1..], i);
    }
  }
}
