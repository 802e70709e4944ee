/** What each call and each packet makes a server do: whom it answers, with what, and what it leaves
    alone.  Packets are the bytes a client writes. */
module ServerAnswers {
  import opened Types
  import opened Crypto
  import opened Tokens
  import opened Packets
  import opened Replay
  import opened Queue
  import opened Traces
  import opened Memory
  import opened Inbox
  import opened Server
  import opened ServerTables
  import E = EndToEnd
  import N = ServerNonces
  import M = Mappings
  import H = TokenHistory

  // ----- sending a payload -----

  /** The mapping of a client after a packet was sent to it: its last access is now, and the rest of
      the table is as it was. */
  ghost predicate Renewed(s: ServerState, m: M.Manager, e: int) {
    && 0 <= e < |s.mappings.entries|
    && m == s.mappings.(entries := s.mappings.entries[e := s.mappings.entries[e].(lastAccess := s.time)])
  }

  lemma SendRenews(s: ServerState, i: nat, p: Packet)
    requires Tables(s) && i < |s.slots| && Remote(s.slots[i])
    ensures var r := SendClient(s, i, p);
            var x := s.slots[i];
            && Renewed(s, r.mappings, x.encryptionIndex)
            && r == s.(mappings := r.mappings,
                       slots := s.slots[i := x.(sequence := (x.sequence + 1) % TWO64, lastSend := s.time)],
                       trace := Then(s.trace, Sent(i, x.address, p, x.sequence,
                                                   s.mappings.entries[x.encryptionIndex].sendKey, s.protocolId)))
  {
    N.SendMappings(s, i, p);
    SendClientTables(s, i, p);
    assert Keyed(s.slots[i], s.mappings, s.time);
    hide Tables, M.Expired;
  }

  /** A send call for a connected client on the network sends the payload, sealed under the client's
      key and numbered next for it; a client that has not been heard yet is sent a keep-alive packet
      first.  Nothing else changes but the slot's counters and the age of its mapping. */
  lemma PayloadGoesOut(a: Aead, s: ServerState, i: nat, data: bytes)
    requires Tables(s) && i < |s.slots| && s.slots[i].connected && !s.slots[i].loopback && |data| <= MAX_PAYLOAD_BYTES
    ensures Enabled(s, SendEvent(i, data)) && 0 <= s.slots[i].encryptionIndex < |s.mappings.entries|
    ensures var r := Step(a, s, SendEvent(i, data));
            var x := s.slots[i];
            var key := s.mappings.entries[x.encryptionIndex].sendKey;
            var welcome := Sent(i, x.address, KeepAlive(ToInt32(i % TWO32), ToInt32(s.maxClients % TWO32)), x.sequence, key,
                                s.protocolId);
            var q := if x.confirmed then x.sequence else (x.sequence + 1) % TWO64;
            && Renewed(s, r.mappings, x.encryptionIndex)
            && r == s.(mappings := r.mappings,
                       slots := s.slots[i := x.(sequence := (q + 1) % TWO64, lastSend := s.time)],
                       trace := Then(if x.confirmed then s.trace else Then(s.trace, welcome),
                                     Sent(i, x.address, Payload(data), q, key, s.protocolId)))
  {
    hide Tables, SendClient;
    RemoteRuns(s, i);
    SendRenews(s, i, Payload(data));
    if !s.slots[i].confirmed {
      var first := SendClient(s, i, KeepAlivePacket(s, i));
      SendRenews(s, i, KeepAlivePacket(s, i));
      SendClientTables(s, i, KeepAlivePacket(s, i));
      SendRenews(first, i, Payload(data));
    }
  }

  /** A send call for a loopback client passes the payload on with the slot's next number; for a slot
      without a client, and on a server that is not running, it does nothing. */
  lemma PayloadElsewhere(a: Aead, s: ServerState, i: nat, data: bytes)
    requires Enabled(s, SendEvent(i, data)) && !(s.running && s.slots[i].connected && !s.slots[i].loopback)
    ensures var r := Step(a, s, SendEvent(i, data));
            if s.running && s.slots[i].connected then
              var x := s.slots[i];
              r == s.(slots := s.slots[i := x.(sequence := (x.sequence + 1) % TWO64, lastSend := s.time)],
                      trace := Then(s.trace, Sent(i, NoAddress, Payload(data), x.sequence, ZERO_KEY, s.protocolId)))
            else r == s
  {
  }

  // ----- taking a payload -----

  /** A receive call for a client's slot returns the oldest payload in the queue, and nothing only when
      the queue is empty. What it returns leaves the queue and is the application's from then on. */
  lemma OldestIsTaken(s: ServerState, i: nat)
    requires s.running && i < |s.slots| && s.slots[i].connected
    ensures var (item, r) := ReceivePayload(s, i);
            var waiting := Contents(s.slots[i].queue);
            && (item.None? <==> waiting == [])
            && (item.None? ==> r == s)
            && (item.Some? ==>
                  && item.value == waiting[0]
                  && r == s.(slots := r.slots, memory := r.memory, trace := Then(s.trace, Handed(i, item.value)))
                  && r.slots == s.slots[i := s.slots[i].(queue := r.slots[i].queue)]
                  && Contents(r.slots[i].queue) == waiting[1..]
                  && r.memory == s.memory.(held := s.memory.held + multiset{item.value.id}))
  {
    PopContents(s.slots[i].queue);
    assert s.slots[i := s.slots[i].(queue := s.slots[i].queue)] == s.slots;
    hide Contents, Pop;
  }

  /** From a slot without a client, and from a server that is not running, nothing is taken. */
  lemma NothingToTake(s: ServerState, i: nat)
    requires s.running ==> i < |s.slots| && !s.slots[i].connected
    ensures ReceivePayload(s, i) == (None, s)
  {
  }

  /** A packet the application gives back is freed. */
  lemma GivenBack(a: Aead, s: ServerState, id: nat)
    requires id in s.memory.held
    ensures Enabled(s, FreeEvent(id))
    ensures Step(a, s, FreeEvent(id))
         == s.(memory := s.memory.(freed := s.memory.freed + multiset{id}, held := s.memory.held - multiset{id}))
  {
  }

  // ----- packets of a client that holds a slot -----

  /** The wire form of a packet of the client in slot i. */
  function FromClient(a: Aead, s: ServerState, i: nat, p: Packet, q: uint64): Datagram
    requires i < |s.slots| && 0 <= s.slots[i].encryptionIndex < |s.mappings.entries|
  {
    Datagram(s.slots[i].address,
             WritePacket(a, p, q, s.mappings.entries[s.slots[i].encryptionIndex].receiveKey, s.protocolId))
  }

  /** The server once it has read the packet: a packet is allocated, and the window has moved. */
  function Noted(s: ServerState, i: nat, p: Packet, q: uint64, w: Window): ServerState
    requires i < |s.slots| && 0 <= s.slots[i].encryptionIndex < |s.mappings.entries|
  {
    var x := s.slots[i];
    s.(slots := s.slots[i := x.(window := w)],
       memory := s.memory.(next := s.memory.next + 1),
       trace := Then(s.trace, Processed(x.address, p, q, Some(s.mappings.entries[x.encryptionIndex].receiveKey))))
  }

  /** A sealed packet of a client is read, or refused by the window of its slot. */
  lemma ClientIsRead(a: Aead, s: ServerState, i: nat, p: Packet, q: uint64, now: uint64)
    requires Lawful(a) && Tables(s) && i < |s.slots| && Remote(s.slots[i]) && Legal(p) && TypeOf(p) in {3, 4, 5, 6}
    ensures 0 <= s.slots[i].encryptionIndex < |s.mappings.entries|
    ensures var r := Receive(a, s, FromClient(a, s, i, p, q), now);
            var x := s.slots[i];
            var moved := if TypeOf(p) == 3 then x.window else AlreadyReceived(x.window, q).1;
            if TypeOf(p) != 3 && AlreadyReceived(x.window, q).0 then r == s.(slots := s.slots[i := x.(window := moved)])
            else r == ProcessPacket(a, Noted(s, i, p, q, moved), x.address, p, q, x.encryptionIndex, i, s.memory.next)
  {
    E.ClientRoute(s, i);
    var x := s.slots[i];
    var key := s.mappings.entries[x.encryptionIndex].receiveKey;
    SealedRoundTrip(a, p, q, key, s.protocolId, now, Some(s.privateKey), ALLOWED, Some(x.window));
    WrittenHeader(a, p, q, key, s.protocolId);
    hide Lawful, ReadPacket, WritePacket, Tables, Receive, ProcessPacket, AlreadyReceived;
    var refused := TypeOf(p) != 3 && AlreadyReceived(x.window, q).0;
    var moved := if TypeOf(p) == 3 then x.window else AlreadyReceived(x.window, q).1;
    RoutedRead(a, s, i, FromClient(a, s, i, p, q).data, now, if refused then None else Some((p, q)), moved);
  }

  /** What the reader's verdict on a datagram from a client's address leads to. */
  lemma RoutedRead(a: Aead, s: ServerState, i: nat, wire: bytes, now: uint64, reading: Reading, w: Window)
    requires Tables(s) && i < |s.slots| && Remote(s.slots[i]) && |wire| > 1
    requires ReadPacket(a, wire, Some(s.mappings.entries[s.slots[i].encryptionIndex].receiveKey), s.protocolId, now,
                        Some(s.privateKey), ALLOWED, Some(s.slots[i].window)) == (reading, Some(w))
    ensures 0 <= s.slots[i].encryptionIndex < |s.mappings.entries|
    ensures var r := Receive(a, s, Datagram(s.slots[i].address, wire), now);
            var x := s.slots[i];
            match reading
            case None => r == s.(slots := s.slots[i := x.(window := w)])
            case Some((p, q)) =>
              r == ProcessPacket(a, Noted(s, i, p, q, w), x.address, p, q, x.encryptionIndex, i, s.memory.next)
  {
    E.ClientRoute(s, i);
    var x := s.slots[i];
    var d := Datagram(x.address, wire);
    ReceiveRouted(a, s, d, now, i, x.encryptionIndex);
    hide ReadPacket, Tables, Route, Receive, ProcessPacket;
    var moved := PutWindow(s, i, Some(w));
    assert moved == s.(slots := s.slots[i := x.(window := w)]);
    if reading.Some? {
      DeliverNoted(a, s, i, reading.value.0, reading.value.1, w);
    }
  }

  lemma ReceiveRouted(a: Aead, s: ServerState, d: Datagram, now: uint64, client: nat, index: int)
    requires Route(s, d.from) == (client, index, s.mappings) && s.running && |d.data| > 1
    requires 0 <= index < s.mappings.num
    ensures client <= |s.slots| && index < |s.mappings.entries|
    ensures var key := Some(s.mappings.entries[index].receiveKey);
            var (reading, w) := ReadPacket(a, d.data, key, s.protocolId, now, Some(s.privateKey), ALLOWED, ReadWindow(s, client));
            Receive(a, s, d, now) == Deliver(a, PutWindow(s, client, w), d.from, reading, index, client)
  {
    assert s.(mappings := s.mappings) == s;
    hide Route, ReadPacket, Deliver, PutWindow;
  }

  lemma DeliverNoted(a: Aead, s: ServerState, i: nat, p: Packet, q: uint64, w: Window)
    requires i < |s.slots| && 0 <= s.slots[i].encryptionIndex < |s.mappings.entries|
    ensures var x := s.slots[i];
            Deliver(a, s.(slots := s.slots[i := x.(window := w)]), x.address, Some((p, q)), x.encryptionIndex, i)
            == ProcessPacket(a, Noted(s, i, p, q, w), x.address, p, q, x.encryptionIndex, i, s.memory.next)
  {
    hide ProcessPacket;
  }

  /** A keep-alive packet of a client confirms it and renews its timeout, and nothing else; one that the
      window refuses does not. */
  lemma KeepAliveConfirms(a: Aead, s: ServerState, i: nat, index: int32, max: int32, q: uint64, now: uint64)
    requires Lawful(a) && Tables(s) && i < |s.slots| && s.slots[i].connected && !s.slots[i].loopback
    ensures 0 <= s.slots[i].encryptionIndex < |s.mappings.entries|
    ensures var r := Receive(a, s, FromClient(a, s, i, KeepAlive(index, max), q), now);
            var x := s.slots[i];
            var (refused, w) := AlreadyReceived(x.window, q);
            if refused then r == s.(slots := s.slots[i := x.(window := w)])
            else
              && r == Noted(s, i, KeepAlive(index, max), q, w).(slots := r.slots, memory := r.memory)
              && r.slots == s.slots[i := x.(window := w, lastReceive := s.time, confirmed := true)]
              && r.memory == s.memory.(next := s.memory.next + 1, freed := s.memory.freed + multiset{s.memory.next})
  {
    hide Lawful, WritePacket, Tables, Receive, AlreadyReceived, Noted, ProcessPacket;
    ClientIsRead(a, s, i, KeepAlive(index, max), q, now);
    var (refused, w) := AlreadyReceived(s.slots[i].window, q);
    if !refused {
      NotedConfirms(a, s, i, index, max, q, w);
    }
  }

  lemma NotedConfirms(a: Aead, s: ServerState, i: nat, index: int32, max: int32, q: uint64, w: Window)
    requires i < |s.slots| && 0 <= s.slots[i].encryptionIndex < |s.mappings.entries|
    ensures var x := s.slots[i];
            var seen := Noted(s, i, KeepAlive(index, max), q, w);
            var r := ProcessPacket(a, seen, x.address, KeepAlive(index, max), q, x.encryptionIndex, i, s.memory.next);
            && r == seen.(slots := r.slots, memory := r.memory)
            && r.slots == s.slots[i := x.(window := w, lastReceive := s.time, confirmed := true)]
            && r.memory == s.memory.(next := s.memory.next + 1, freed := s.memory.freed + multiset{s.memory.next})
  {
  }

  /** A disconnect packet of a client frees its slot: the slot is clean, the client count is one less,
      the address has no mapping, nothing is sent, no other slot changes, and every payload nobody took
      is freed with the packet; one that the window refuses does none of this. */
  lemma DisconnectFrees(a: Aead, s: ServerState, i: nat, q: uint64, now: uint64)
    requires Lawful(a) && Tables(s) && i < |s.slots| && s.slots[i].connected && !s.slots[i].loopback
    ensures 0 <= s.slots[i].encryptionIndex < |s.mappings.entries|
    ensures var r := Receive(a, s, FromClient(a, s, i, Disconnect, q), now);
            var x := s.slots[i];
            var (refused, w) := AlreadyReceived(x.window, q);
            if refused then r == s.(slots := s.slots[i := x.(window := w)])
            else
              && |r.slots| == |s.slots| && r.slots[i] == Emptied(s.slots[i]) && r.numConnected == s.numConnected - 1
              && (forall j :: 0 <= j < |s.slots| && j != i ==> r.slots[j] == s.slots[j])
              && x.address !in M.View(r.mappings, s.time)
              && (forall j: int :: SentTo(r.trace, j) == SentTo(s.trace, j))
              && r.memory.held == s.memory.held
              && r.memory.freed == s.memory.freed + Ids(Contents(x.queue)) + multiset{s.memory.next}
              && r == s.(slots := r.slots, numConnected := r.numConnected, mappings := r.mappings, memory := r.memory,
                         trace := r.trace)
  {
    hide Lawful, WritePacket, Tables, Receive, AlreadyReceived, Noted, DisconnectInternal, M.View, SentTo, Contents;
    ClientIsRead(a, s, i, Disconnect, q, now);
    RemoteRuns(s, i);
    var (refused, w) := AlreadyReceived(s.slots[i].window, q);
    if !refused {
      var seen := Noted(s, i, Disconnect, q, w);
      NotedTables(s, i, Disconnect, q, w);
      NotedShape(s, i, Disconnect, q, w);
      LetsGo(seen, i);
    }
  }

  lemma NotedShape(s: ServerState, i: nat, p: Packet, q: uint64, w: Window)
    requires i < |s.slots| && 0 <= s.slots[i].encryptionIndex < |s.mappings.entries|
    ensures var r := Noted(s, i, p, q, w);
            && r == s.(slots := s.slots[i := s.slots[i].(window := w)], memory := s.memory.(next := s.memory.next + 1),
                       trace := r.trace)
            && (forall j: int :: SentTo(r.trace, j) == SentTo(s.trace, j))
  {
    SentUnchanged(s.trace, Noted(s, i, p, q, w).trace.last);
    hide SentTo;
  }

  lemma SentUnchanged(t: Trace, e: Effect)
    requires !e.Sent?
    ensures forall j: int :: SentTo(Then(t, e), j) == SentTo(t, j)
  {
  }

  lemma NotedTables(s: ServerState, i: nat, p: Packet, q: uint64, w: Window)
    requires Tables(s) && i < |s.slots| && Remote(s.slots[i]) && 0 <= s.slots[i].encryptionIndex < |s.mappings.entries|
    ensures Tables(Noted(s, i, p, q, w))
  {
    var y := s.slots[i].(window := w);
    RemoteOk(y);
    PutSlotTables(s, i, y);
    hide Tables;
    TraceTables(PutSlot(s, i, y), Noted(s, i, p, q, w));
  }

  lemma {:induction false} PopAllUnsent(b: Inbox, slot: int)
    ensures forall j: int :: SentTo(PopAll(b, slot).trace, j) == SentTo(b.trace, j)
    decreases b.queue.num
  {
    PopContents(b.queue);
    var (item, rest) := Pop(b.queue);
    if item.Some? {
      SentUnchanged(b.trace, Discarded(slot, item.value));
      PopAllUnsent(Inbox(rest, Free(b.memory, item.value.id), Then(b.trace, Discarded(slot, item.value))), slot);
    }
  }

  /** A drained queue is empty, its payloads are freed, and nothing was sent. */
  lemma Drained(b: Inbox, slot: int)
    ensures var r := Drain(b, slot);
            && r.queue == Empty(|b.queue.slots|)
            && r.memory == b.memory.(freed := b.memory.freed + Ids(Contents(b.queue)))
            && (forall j: int :: SentTo(r.trace, j) == SentTo(b.trace, j))
  {
    DrainLedger(b, slot);
    PopAllLedger(b, slot);
    PopAllUnsent(b, slot);
    hide PopAll, SentTo, Contents, Ids;
  }

  /** A slot given up; of the client that held it the source leaves only the timeout behind. */
  function Emptied(x: Slot): Slot {
    Slot(false, false, false, x.timeout, -1, 0, 0, 0.0, 0.0, ZERO_USER_DATA, NoAddress, Fresh(|x.window.received|),
         Empty(|x.queue.slots|))
  }

  /** Letting a client go without telling it. */
  lemma LetsGo(s: ServerState, i: nat)
    requires Tables(s) && i < |s.slots| && Remote(s.slots[i])
    ensures var r := DisconnectInternal(s, i, false);
            && |r.slots| == |s.slots| && r.slots[i] == Emptied(s.slots[i]) && r.numConnected == s.numConnected - 1
            && (forall j :: 0 <= j < |s.slots| && j != i ==> r.slots[j] == s.slots[j])
            && s.slots[i].address !in M.View(r.mappings, s.time)
            && (forall j: int :: SentTo(r.trace, j) == SentTo(s.trace, j))
            && r.memory == s.memory.(freed := s.memory.freed + Ids(Contents(s.slots[i].queue)))
            && r == s.(slots := r.slots, numConnected := r.numConnected, mappings := r.mappings, memory := r.memory,
                       trace := r.trace)
  {
    RemoteRuns(s, i);
    var x := s.slots[i];
    assert Keyed(x, s.mappings, s.time);
    Drained(Box(s, i), i);
    SentUnchanged(Drain(Box(s, i), i).trace, Released(i));
    M.RemoveView(s.mappings, x.address, s.time);
    M.RemoveInv(s.mappings, x.address, s.time);
    hide Tables, Drain, M.Remove, M.View, SentTo;
  }

  // ----- connection responses -----

  /** The first slot that is free. */
  predicate FirstFree(s: ServerState, i: nat) {
    i < s.maxClients && !s.slots[i].connected && (forall j :: 0 <= j < i ==> s.slots[j].connected)
  }

  /** The address or the client id holds a slot. */
  ghost predicate Seats(s: ServerState, from: Address, id: uint64) {
    exists j :: 0 <= j < |s.slots| && s.slots[j].connected
                && (SameAddress(s.slots[j].address, from) || s.slots[j].clientId == id)
  }

  /** The server after it took the client in: the first free slot is the client's, its mapping no longer
      expires, and it was sent a keep-alive packet numbered 0 with its index and the number of slots. */
  ghost predicate TookIn(s: ServerState, r: ServerState, i: nat, from: Address, t: ChallengeToken, index: nat)
    requires i < |s.slots| && index < |s.mappings.entries|
  {
    var e := s.mappings.entries[index];
    r == s.(numConnected := s.numConnected + 1,
            mappings := s.mappings.(entries := s.mappings.entries[index := e.(expireTime := -1.0, lastAccess := s.time)]),
            slots := s.slots[i := s.slots[i].(connected := true, timeout := e.timeout, encryptionIndex := index,
                                              clientId := t.clientId, sequence := 1, address := from,
                                              lastSend := s.time, lastReceive := s.time, userData := t.userData)],
            trace := Then(Then(s.trace, Accepted(i, from, t.clientId, Keys(e.sendKey, e.receiveKey))),
                          Sent(i, from, KeepAlive(ToInt32(i % TWO32), ToInt32(s.maxClients % TWO32)), 0, e.sendKey,
                               s.protocolId)))
  }

  /** A response is answered only if its challenge token opens under the challenge key, its sender has a
      mapping, and neither its address nor the token's client id holds a slot. Then a full server sends
      a denial under the mapping's key, and one with a free slot takes the client in. */
  lemma AnsweredExactlyWhen(a: Aead, s: ServerState, from: Address, n: uint64, data: ChallengeData, index: int, client: nat)
    requires Tables(s) && Routed(s, from, index, client)
    ensures var r := ProcessResponse(a, s, from, n, data, index);
            var answer := OpenChallenge(a, data, n, s.challengeKey);
            if answer.None? || index == -1 || Seats(s, from, answer.value.clientId) then r == s
            else
              && 0 <= index < |s.mappings.entries|
              && (if s.numConnected == s.maxClients then
                    r == s.(trace := Then(s.trace, Sent(GLOBAL, from, Denied, s.globalSequence,
                                                        s.mappings.entries[index].sendKey, s.protocolId)),
                            globalSequence := (s.globalSequence + 1) % TWO64)
                  else
                    && (exists i :: FirstFree(s, i))
                    && (forall i :: FirstFree(s, i) ==> TookIn(s, r, i, from, answer.value, index)))
  {
    hide OpenChallenge, ConnectClient, Tables, M.Live, FindById, FindByAddress, FindFree, TookIn, Routed;
    var answer := OpenChallenge(a, data, n, s.challengeKey);
    if answer.Some? && index != -1 {
      var id := answer.value.clientId;
      RoutedIndex(s, from, index, client);
      SeatsSearched(s, from, id);
      if !Seats(s, from, id) && s.numConnected != s.maxClients {
        FreeSlotExists(s);
        var i := FindFree(s.slots, 0, s.maxClients);
        FoundFree(s, i);
        NewcomerRoute(s, from, index, client, id);
        OpenServerRuns(s, i);
        TakesIn(s, i, from, answer.value, index);
        forall j | FirstFree(s, j)
          ensures j == i
        {
          OneFirstFree(s, i, j);
        }
      }
    }
  }

  lemma RoutedIndex(s: ServerState, from: Address, index: int, client: nat)
    requires Tables(s) && Routed(s, from, index, client) && index != -1
    ensures 0 <= index < s.mappings.num <= |s.mappings.entries|
  {
    if client < |s.slots| {
      assert Keyed(s.slots[client], s.mappings, s.time);
    }
    hide M.Live;
  }

  lemma SeatsSearched(s: ServerState, from: Address, id: uint64)
    requires Tables(s)
    ensures Seats(s, from, id) <==> FindByAddress(s.slots, 0, s.maxClients, from) < s.maxClients
                                    || FindById(s.slots, 0, s.maxClients, id) < s.maxClients
  {
  }

  lemma FoundFree(s: ServerState, i: nat)
    requires i == FindFree(s.slots, 0, s.maxClients) < s.maxClients
    ensures FirstFree(s, i)
  {
  }

  lemma OneFirstFree(s: ServerState, i: nat, j: nat)
    requires FirstFree(s, i) && FirstFree(s, j)
    ensures i == j
  {
  }

  lemma TakesIn(s: ServerState, i: nat, from: Address, t: ChallengeToken, index: nat)
    requires s.running && i < s.maxClients && !s.slots[i].connected && !s.slots[i].loopback
    requires s.numConnected < s.maxClients && index < s.mappings.num <= |s.mappings.entries|
    requires s.mappings.entries[index].address == from != NoAddress
    ensures TookIn(s, ConnectClient(s, i, from, t.clientId, index, s.mappings.entries[index].timeout, t.userData), i, from,
                   t, index)
  {
    var e := s.mappings.entries[index];
    var joined := Seat(s, i, Taken(s, s.slots[i], from, t.clientId, index, e.timeout, t.userData));
    assert joined.slots[i].connected && !joined.slots[i].loopback && joined.mappings.entries[index] == e.(expireTime := -1.0);
    assert M.Touch(joined.mappings, index, from, s.time).0;
    var r := SendClient(joined, i, KeepAlivePacket(joined, i));
    assert r.slots == s.slots[i := r.slots[i]] && r.slots[i].sequence == 1;
    assert r.mappings.entries == s.mappings.entries[index := e.(expireTime := -1.0, lastAccess := s.time)];
  }

  /** A routed sender that holds no slot. */
  lemma NewcomerRoute(s: ServerState, from: Address, index: int, client: nat, id: uint64)
    requires Tables(s) && Routed(s, from, index, client) && index != -1 && !Seats(s, from, id)
    ensures s.mappings.entries[index].address == from != NoAddress
  {
    if client < |s.slots| {
      SeatedSeats(s, from, index, client, id);
    }
  }

  lemma SeatedSeats(s: ServerState, from: Address, index: int, client: nat, id: uint64)
    requires Tables(s) && Routed(s, from, index, client) && client < |s.slots|
    ensures Seats(s, from, id)
  {
    assert Keyed(s.slots[client], s.mappings, s.time);
    assert SameAddress(s.slots[client].address, from);
  }

  lemma OpenServerRuns(s: ServerState, i: nat)
    requires Tables(s) && i < s.maxClients && !s.slots[i].connected
    ensures s.running && !s.slots[i].loopback
  {
    FreeNotLoopback(s, i);
  }

  /** Datagrams are taken one after the other, each by the server the ones before it left. */
  lemma {:induction false} TakenInOrder(a: Aead, s: ServerState, ds: seq<Datagram>, d: Datagram, now: uint64)
    ensures ReceiveAll(a, s, ds + [d], now) == Receive(a, ReceiveAll(a, s, ds, now), d, now)
    decreases |ds|
  {
    hide Receive;
    if ds == [] {
      assert [d][1..] == [];
    } else {
      assert (ds + [d])[1..] == ds[1..] + [d];
      TakenInOrder(a, Receive(a, s, ds[0], now), ds[1..], d, now);
    }
  }

  // ----- packets that lead to nothing -----

  /** A server told to ignore requests, or responses, frees the packet and does nothing else. */
  lemma FlagsIgnore(a: Aead, s: ServerState, from: Address, p: Packet, q: uint64, index: int, client: nat, id: nat)
    requires client <= |s.slots| && ((p.Request? && s.ignoreRequests) || (p.Response? && s.ignoreResponses))
    ensures ProcessPacket(a, s, from, p, q, index, client, id) == s.(memory := Free(s.memory, id))
  {
  }

  /** Keep-alive, payload and disconnect packets of somebody who holds no slot are freed. */
  lemma StrangersAreIgnored(a: Aead, s: ServerState, from: Address, p: Packet, q: uint64, index: int, id: nat)
    requires p.KeepAlive? || p.Payload? || p.Disconnect?
    ensures ProcessPacket(a, s, from, p, q, index, |s.slots|, id) == s.(memory := Free(s.memory, id))
  {
  }

  /** A datagram is not even read on a server that is not running, when it is a single byte, or when it
      is no request and its sender has no mapping. */
  lemma UnknownSendersAreIgnored(a: Aead, s: ServerState, d: Datagram, now: uint64)
    requires Tables(s)
    requires !s.running || |d.data| <= 1
             || (d.data[0] != 0 && d.from !in M.View(s.mappings, s.time)
                 && (forall j :: 0 <= j < |s.slots| && s.slots[j].connected ==> !SameAddress(s.slots[j].address, d.from)))
    ensures Receive(a, s, d, now) == s
  {
    if s.running && |d.data| > 1 {
      M.FindView(s.mappings, d.from, s.time);
      var i := FindByAddress(s.slots, 0, s.maxClients, d.from);
      hide M.View, Tables, Read, Deliver;
      assert s.(mappings := s.mappings) == s;
      assert M.Find(s.mappings, d.from, s.time) == (-1, s.mappings);
    }
  }

  /** A genuine response of somebody with a mapping, when the server is full: the sender is denied under
      the key of its mapping, and nobody's slot changes. */
  lemma FullServerDenies(a: Aead, s: ServerState, from: Address, t: ChallengeToken, n: uint64, q: uint64, now: uint64)
    requires Lawful(a) && Tables(s) && s.running && !s.ignoreResponses && s.numConnected == s.maxClients
    requires from in M.View(s.mappings, s.time) && !Seats(s, from, t.clientId)
    ensures |SealChallenge(a, t, n, s.challengeKey)| == CHALLENGE_TOKEN_BYTES
    ensures var e := M.View(s.mappings, s.time)[from];
            var p := Response(n, SealChallenge(a, t, n, s.challengeKey));
            var r := Receive(a, s, Datagram(from, WritePacket(a, p, q, e.receiveKey, s.protocolId)), now);
            && r.slots == s.slots && r.numConnected == s.numConnected
            && SentTo(r.trace, GLOBAL)
               == SentTo(s.trace, GLOBAL) + [Sent(GLOBAL, from, Denied, s.globalSequence, e.sendKey, s.protocolId)]
  {
    hide Lawful, Tables, SealChallenge, OpenChallenge, WritePacket, ReadPacket, Receive, M.View, M.Find, Route, ProcessResponse,
         Seats, SentTo;
    OpenSealChallenge(a, t, n, s.challengeKey);
    var e := M.View(s.mappings, s.time)[from];
    var p := Response(n, SealChallenge(a, t, n, s.challengeKey));
    FoundIsMapping(s, from);
    NobodyRoute(s, from, t.clientId);
    var (index, m) := M.Find(s.mappings, from, s.time);
    SealedRoundTrip(a, p, q, e.receiveKey, s.protocolId, now, Some(s.privateKey), ALLOWED, None);
    WrittenHeader(a, p, q, e.receiveKey, s.protocolId);
    E.ReceiveResponse(a, s, from, WritePacket(a, p, q, e.receiveKey, s.protocolId), now, p, q);
    SeenStranger(s, from, p, q, t.clientId);
    var seen := E.Seen(s, from, p, q);
    AnsweredExactlyWhen(a, seen, from, n, p.challengeData, index, |s.slots|);
    hide E.Seen;
    SentOnce(seen.trace, Sent(GLOBAL, from, Denied, s.globalSequence, e.sendKey, s.protocolId));
  }

  lemma SentOnce(t: Trace, e: Effect)
    requires e.Sent?
    ensures SentTo(Then(t, e), e.slot) == SentTo(t, e.slot) + [e]
  {
  }

  lemma FoundIsMapping(s: ServerState, from: Address)
    requires Tables(s) && from in M.View(s.mappings, s.time)
    ensures var (index, m) := M.Find(s.mappings, from, s.time);
            var e := M.View(s.mappings, s.time)[from];
            && 0 <= index < s.mappings.num && |m.entries| == |s.mappings.entries|
            && m.entries[index].receiveKey == e.receiveKey && m.entries[index].sendKey == e.sendKey
  {
    M.FindView(s.mappings, from, s.time);
    E.FoundKeys(s.mappings, from, s.time);
    hide M.View;
  }

  lemma NobodyRoute(s: ServerState, from: Address, id: uint64)
    requires Tables(s) && !Seats(s, from, id)
    ensures Route(s, from) == (|s.slots|, M.Find(s.mappings, from, s.time).0, M.Find(s.mappings, from, s.time).1)
  {
    SeatsSearched(s, from, id);
    hide M.Find;
  }

  lemma SeenStranger(s: ServerState, from: Address, p: Packet, q: uint64, id: uint64)
    requires Tables(s) && !Seats(s, from, id)
    ensures var seen := E.Seen(s, from, p, q);
            var (index, m) := M.Find(s.mappings, from, s.time);
            && Tables(seen) && Routed(seen, from, index, |s.slots|) && !Seats(seen, from, id)
            && seen == s.(mappings := m, memory := seen.memory, trace := seen.trace)
            && SentTo(seen.trace, GLOBAL) == SentTo(s.trace, GLOBAL)
  {
    RouteTables(s, from);
    NobodyRoute(s, from, id);
    var (index, m) := M.Find(s.mappings, from, s.time);
    SentUnchanged(s.trace, E.Seen(s, from, p, q).trace.last);
    hide Tables, M.Find, M.Live, SentTo;
    TraceTables(s.(mappings := m), E.Seen(s, from, p, q));
  }

  // ----- letting clients go -----

  /** The disconnect packets a client is sent when the server lets it go. */
  function Farewells(s: ServerState, i: nat, n: nat): (es: seq<Effect>)
    requires i < |s.slots| && 0 <= s.slots[i].encryptionIndex < |s.mappings.entries|
    ensures |es| == n
  {
    var x := s.slots[i];
    seq(n, k requires 0 <= k < n =>
      Sent(i, x.address, Disconnect, (x.sequence + k) % TWO64, s.mappings.entries[x.encryptionIndex].sendKey, s.protocolId))
  }

  /** What n disconnect packets leave behind. */
  ghost predicate Told(s: ServerState, r: ServerState, i: nat, n: nat)
    requires i < |s.slots| && 0 <= s.slots[i].encryptionIndex < |s.mappings.entries|
  {
    var x := s.slots[i];
    && r == s.(mappings := r.mappings, slots := r.slots, trace := r.trace)
    && |r.slots| == |s.slots| && r.slots == s.slots[i := x.(sequence := (x.sequence + n) % TWO64, lastSend := r.slots[i].lastSend)]
    && (forall j: int :: SentTo(r.trace, j) == SentTo(s.trace, j) + (if j == i then Farewells(s, i, n) else []))
  }

  lemma {:induction false} TellsTen(s: ServerState, i: nat, n: nat)
    requires Tables(s) && i < |s.slots| && Remote(s.slots[i])
    ensures 0 <= s.slots[i].encryptionIndex < |s.mappings.entries|
    ensures Told(s, SendDisconnects(s, i, n), i, n) && Tables(SendDisconnects(s, i, n))
    decreases n
  {
    hide Tables, SendClient, Told;
    SendRenews(s, i, Disconnect);
    if n > 0 {
      var r := SendClient(s, i, Disconnect);
      SendClientTables(s, i, Disconnect);
      TellsTen(r, i, n - 1);
      ToldOneMore(s, r, SendDisconnects(s, i, n), i, n);
    } else {
      ToldNothing(s, i);
    }
  }

  lemma ToldNothing(s: ServerState, i: nat)
    requires i < |s.slots| && 0 <= s.slots[i].encryptionIndex < |s.mappings.entries|
    ensures Told(s, s, i, 0)
  {
    var x := s.slots[i];
    assert x.sequence % TWO64 == x.sequence;
    assert s.slots == s.slots[i := x];
    hide SentTo;
  }

  lemma ToldOneMore(s: ServerState, r: ServerState, u: ServerState, i: nat, n: nat)
    requires n > 0 && i < |s.slots| == |r.slots| && Renewed(s, r.mappings, s.slots[i].encryptionIndex)
    requires var x := s.slots[i];
             r == s.(mappings := r.mappings,
                     slots := s.slots[i := x.(sequence := (x.sequence + 1) % TWO64, lastSend := s.time)],
                     trace := Then(s.trace, Sent(i, x.address, Disconnect, x.sequence,
                                                 s.mappings.entries[x.encryptionIndex].sendKey, s.protocolId)))
    requires Told(r, u, i, n - 1)
    ensures Told(s, u, i, n)
  {
    var x := s.slots[i];
    assert ((x.sequence + 1) % TWO64 + (n - 1)) % TWO64 == (x.sequence + n) % TWO64;
    assert u.slots == s.slots[i := x.(sequence := (x.sequence + n) % TWO64, lastSend := u.slots[i].lastSend)];
    var first := r.trace.last;
    assert forall j: int :: SentTo(r.trace, j) == SentTo(s.trace, j) + (if j == i then [first] else []);
    FarewellsNext(s, r, i, n);
    hide SentTo, Farewells;
  }

  lemma FarewellsNext(s: ServerState, r: ServerState, i: nat, n: nat)
    requires n > 0 && i < |s.slots| == |r.slots| && Renewed(s, r.mappings, s.slots[i].encryptionIndex)
    requires r.protocolId == s.protocolId
    requires r.slots[i] == s.slots[i].(sequence := (s.slots[i].sequence + 1) % TWO64, lastSend := s.time)
    ensures var x := s.slots[i];
            Farewells(s, i, n)
            == [Sent(i, x.address, Disconnect, x.sequence, s.mappings.entries[x.encryptionIndex].sendKey, s.protocolId)]
               + Farewells(r, i, n - 1)
  {
    var x := s.slots[i];
    assert r.mappings.entries[x.encryptionIndex].sendKey == s.mappings.entries[x.encryptionIndex].sendKey;
    forall k | 0 <= k < n
      ensures Farewells(s, i, n)[k].sequence
              == if k == 0 then x.sequence else Farewells(r, i, n - 1)[k - 1].sequence
    {
      assert k > 0 ==> ((x.sequence + 1) % TWO64 + (k - 1)) % TWO64 == (x.sequence + k) % TWO64;
    }
  }

  /** The server lets a client go on its own: ten disconnect packets, numbered on from the client's
      counter, and then a clean slot. */
  ghost predicate LetGo(s: ServerState, r: ServerState, i: nat)
    requires i < |s.slots| && 0 <= s.slots[i].encryptionIndex < |s.mappings.entries|
  {
    && |r.slots| == |s.slots| && r.slots[i] == Emptied(s.slots[i])
    && (forall j :: 0 <= j < |s.slots| && j != i ==> r.slots[j] == s.slots[j])
    && s.slots[i].address !in M.View(r.mappings, s.time)
    && (forall j: int :: SentTo(r.trace, j) == SentTo(s.trace, j) + (if j == i then Farewells(s, i, 10) else []))
    && r == s.(slots := r.slots, numConnected := s.numConnected - 1, mappings := r.mappings,
               memory := s.memory.(freed := s.memory.freed + Ids(Contents(s.slots[i].queue))), trace := r.trace)
  }

  lemma LetsGoTold(s: ServerState, i: nat)
    requires Tables(s) && i < |s.slots| && Remote(s.slots[i])
    ensures 0 <= s.slots[i].encryptionIndex < |s.mappings.entries|
    ensures LetGo(s, DisconnectInternal(s, i, true), i) && Tables(DisconnectInternal(s, i, true))
  {
    hide Tables, SendDisconnects, DisconnectInternal, Release, M.View, SentTo, Farewells, Contents, Told, LetGo;
    RemoteRuns(s, i);
    TellsTen(s, i, 10);
    var d := SendDisconnects(s, i, 10);
    ToldStill(s, d, i);
    LetsGo(d, i);
    DisconnectTables(s, i, true);
    SameRelease(s, i);
    ToldAndGone(s, d, DisconnectInternal(s, i, true), i);
  }

  lemma ToldStill(s: ServerState, d: ServerState, i: nat)
    requires i < |s.slots| && 0 <= s.slots[i].encryptionIndex < |s.mappings.entries| && Told(s, d, i, 10)
    ensures |d.slots| == |s.slots| && (Remote(s.slots[i]) ==> Remote(d.slots[i]))
  {
    hide SentTo, Farewells;
  }

  lemma ToldAndGone(s: ServerState, d: ServerState, r: ServerState, i: nat)
    requires i < |s.slots| && 0 <= s.slots[i].encryptionIndex < |s.mappings.entries| && Told(s, d, i, 10)
    requires |r.slots| == |d.slots| && r.slots[i] == Emptied(d.slots[i]) && r.numConnected == d.numConnected - 1
    requires forall j :: 0 <= j < |d.slots| && j != i ==> r.slots[j] == d.slots[j]
    requires d.slots[i].address !in M.View(r.mappings, d.time)
    requires forall j: int :: SentTo(r.trace, j) == SentTo(d.trace, j)
    requires r.memory == d.memory.(freed := d.memory.freed + Ids(Contents(d.slots[i].queue)))
    requires r == d.(slots := r.slots, numConnected := r.numConnected, mappings := r.mappings, memory := r.memory,
                     trace := r.trace)
    ensures LetGo(s, r, i)
  {
    hide M.View, SentTo, Farewells, Contents;
  }

  lemma SameRelease(s: ServerState, i: nat)
    requires Tables(s) && s.running && i < s.maxClients && Remote(s.slots[i])
    ensures DisconnectInternal(s, i, true) == DisconnectInternal(SendDisconnects(s, i, 10), i, false)
  {
    SendDisconnectsTables(s, i, 10);
    TellsTen(s, i, 10);
    hide Tables, SendDisconnects, Release, SentTo, Farewells;
  }

  /** The application drops a client. */
  lemma ClientIsDropped(a: Aead, s: ServerState, i: nat)
    requires Tables(s) && i < |s.slots| && s.slots[i].connected && !s.slots[i].loopback
    ensures 0 <= s.slots[i].encryptionIndex < |s.mappings.entries|
    ensures Enabled(s, DisconnectEvent(i)) && LetGo(s, Step(a, s, DisconnectEvent(i)), i)
  {
    hide Tables, DisconnectInternal, LetGo;
    RemoteRuns(s, i);
    LetsGoTold(s, i);
  }

  lemma NobodyToDrop(a: Aead, s: ServerState, i: nat)
    requires s.running ==> i < s.maxClients && !s.slots[i].connected && !s.slots[i].loopback
    ensures Step(a, s, DisconnectEvent(i)) == s
  {
  }

  // ----- letting everybody go -----

  /** The keys of the clients from slot i on. */
  ghost predicate KeysKept(s: ServerState, r: ServerState, i: nat) {
    && |r.mappings.entries| == |s.mappings.entries|
    && (forall j :: i <= j < |s.slots| && Remote(s.slots[j]) && 0 <= s.slots[j].encryptionIndex < |s.mappings.entries| ==>
          r.mappings.entries[s.slots[j].encryptionIndex].sendKey == s.mappings.entries[s.slots[j].encryptionIndex].sendKey)
  }

  /** Everybody on the network from slot i on was let go, and nobody else. */
  ghost predicate AllLetGo(s: ServerState, r: ServerState, i: nat) {
    && |r.slots| == |s.slots| && SentTo(r.trace, GLOBAL) == SentTo(s.trace, GLOBAL)
    && r == s.(slots := r.slots, numConnected := r.numConnected, mappings := r.mappings, memory := r.memory, trace := r.trace)
    && (forall j :: 0 <= j < |s.slots| && 0 <= s.slots[j].encryptionIndex < |s.mappings.entries| && i <= j
                    && Remote(s.slots[j]) ==>
          r.slots[j] == Emptied(s.slots[j]) && SentTo(r.trace, j) == SentTo(s.trace, j) + Farewells(s, j, 10))
    && (forall j :: 0 <= j < |s.slots| && !(i <= j && Remote(s.slots[j])) ==>
          r.slots[j] == s.slots[j] && SentTo(r.trace, j) == SentTo(s.trace, j))
  }

  lemma {:induction false} DropsEverybody(s: ServerState, i: nat)
    requires Tables(s) && i <= s.maxClients
    ensures AllLetGo(s, DisconnectFrom(s, i), i)
    decreases s.maxClients - i
  {
    hide Tables, DisconnectInternal, AllLetGo, LetGo, KeysKept;
    if i < s.maxClients {
      if Remote(s.slots[i]) {
        var r := DisconnectInternal(s, i, true);
        LetsGoTold(s, i);
        LetGoKeepsKeys(s, i);
        DropsEverybody(r, i + 1);
        AllLetGoOne(s, r, DisconnectFrom(r, i + 1), i);
      } else {
        DropsEverybody(s, i + 1);
        AllLetGoSkip(s, DisconnectFrom(s, i + 1), i);
      }
    } else {
      NobodyLeft(s);
    }
  }

  lemma NobodyLeft(s: ServerState)
    requires Tables(s)
    ensures AllLetGo(s, s, s.maxClients)
  {
    assert forall j :: s.maxClients <= j < |s.slots| ==> !s.slots[j].connected;
    hide Tables, SentTo, Farewells;
  }

  lemma AllLetGoSkip(s: ServerState, u: ServerState, i: nat)
    requires i < |s.slots| && !Remote(s.slots[i]) && AllLetGo(s, u, i + 1)
    ensures AllLetGo(s, u, i)
  {
    hide SentTo, Farewells;
  }

  lemma AllLetGoOne(s: ServerState, r: ServerState, u: ServerState, i: nat)
    requires i < |s.slots| && Remote(s.slots[i]) && 0 <= s.slots[i].encryptionIndex < |s.mappings.entries|
    requires LetGo(s, r, i) && KeysKept(s, r, i + 1) && AllLetGo(r, u, i + 1)
    ensures AllLetGo(s, u, i)
  {
    hide SentTo, M.View, Contents;
    forall j | i < j < |s.slots| && Remote(s.slots[j]) && 0 <= s.slots[j].encryptionIndex < |s.mappings.entries|
      ensures Farewells(r, j, 10) == Farewells(s, j, 10)
    {
    }
    hide Farewells;
  }

  lemma LetGoKeepsKeys(s: ServerState, i: nat)
    requires Tables(s) && i < |s.slots| && Remote(s.slots[i])
    ensures KeysKept(s, DisconnectInternal(s, i, true), i + 1)
  {
    hide Tables, SendDisconnects, M.Remove, M.Live, Drain;
    RemoteRuns(s, i);
    SendDisconnectsTables(s, i, 10);
    TellsKeepsKeys(s, i, 10);
    var d := SendDisconnects(s, i, 10);
    assert DisconnectInternal(s, i, true).mappings == M.Remove(d.mappings, d.slots[i].address, d.time).1;
    RemoveKeepsKeys(d, i);
  }

  /** Taking the mapping of one client away leaves the keys of the others. */
  lemma RemoveKeepsKeys(d: ServerState, i: nat)
    requires Tables(d) && i < |d.slots| && Remote(d.slots[i])
    ensures var m := M.Remove(d.mappings, d.slots[i].address, d.time).1;
            && |m.entries| == |d.mappings.entries|
            && (forall j :: i < j < |d.slots| && Remote(d.slots[j]) && 0 <= d.slots[j].encryptionIndex < |d.mappings.entries| ==>
                  m.entries[d.slots[j].encryptionIndex] == d.mappings.entries[d.slots[j].encryptionIndex])
  {
    M.RemoveInv(d.mappings, d.slots[i].address, d.time);
    forall j | i < j < |d.slots| && Remote(d.slots[j]) && 0 <= d.slots[j].encryptionIndex < |d.mappings.entries|
      ensures M.Live(d.mappings.entries[d.slots[j].encryptionIndex], d.time)
      ensures d.mappings.entries[d.slots[j].encryptionIndex].address != d.slots[i].address
    {
      assert Keyed(d.slots[j], d.mappings, d.time) && Keyed(d.slots[i], d.mappings, d.time);
      IndicesDistinct(d, i, j);
    }
    hide Tables, M.Remove, M.Live, M.OnlyAdds;
  }

  lemma {:induction false} TellsKeepsKeys(s: ServerState, i: nat, n: nat)
    requires Tables(s) && i < |s.slots| && Remote(s.slots[i])
    ensures var r := SendDisconnects(s, i, n);
            && |r.mappings.entries| == |s.mappings.entries| && r.time == s.time && |r.slots| == |s.slots|
            && (forall k :: 0 <= k < |s.mappings.entries| ==> r.mappings.entries[k].sendKey == s.mappings.entries[k].sendKey)
            && (forall j :: 0 <= j < |s.slots| && j != i ==> r.slots[j] == s.slots[j])
            && r.slots[i].address == s.slots[i].address && Tables(r)
    decreases n
  {
    hide Tables, SendClient;
    if n > 0 {
      SendRenews(s, i, Disconnect);
      SendClientTables(s, i, Disconnect);
      TellsKeepsKeys(SendClient(s, i, Disconnect), i, n - 1);
    }
  }

  /** The application drops every client: those on the network are told and gone, and the slots of the
      others are as they were. */
  lemma EverybodyIsDropped(a: Aead, s: ServerState)
    requires Tables(s) && s.running
    ensures AllLetGo(s, Step(a, s, DisconnectAllEvent), 0)
  {
    DropsEverybody(s, 0);
  }

  // ----- stopping and starting -----

  /** A stop drops every client on the network, and forgets the challenge key, the token history, the
      mappings and the counters; the global sequence starts over at 0. */
  lemma ServerStops(a: Aead, s: ServerState)
    requires Tables(s) && s.running
    ensures var r := Step(a, s, StopEvent);
            && r == s.(running := false, maxClients := 0, numConnected := 0, globalSequence := 0, challengeSequence := 0,
                       challengeKey := ZERO_KEY, history := H.Reset(|s.history|),
                       mappings := M.Reset(|s.mappings.entries|), slots := r.slots, memory := r.memory, trace := r.trace)
            && r.trace.Then? && r.trace.last == Stopped
            && AllLetGo(s, s.(slots := r.slots, memory := r.memory, trace := r.trace.past), 0)
  {
    DropsEverybody(s, 0);
    hide DisconnectFrom, SentTo, Farewells, Tables;
    var d := DisconnectFrom(s, 0);
    assert |d.history| == |s.history| && |d.mappings.entries| == |s.mappings.entries| by {
      SizesStay(s, 0);
    }
  }

  lemma {:induction false} SizesStay(s: ServerState, i: nat)
    requires i <= s.maxClients
    ensures |DisconnectFrom(s, i).mappings.entries| == |s.mappings.entries|
    decreases s.maxClients - i
  {
    if i < s.maxClients {
      OneSizeStays(s, i);
      hide DisconnectInternal;
      SizesStay(if Remote(s.slots[i]) then DisconnectInternal(s, i, true) else s, i + 1);
    }
  }

  lemma OneSizeStays(s: ServerState, i: nat)
    requires i < |s.slots|
    ensures |DisconnectInternal(s, i, true).mappings.entries| == |s.mappings.entries|
  {
    TellSizesStay(s, i, 10);
    hide SendDisconnects, Drain;
  }

  lemma {:induction false} TellSizesStay(s: ServerState, i: nat, n: nat)
    requires i < |s.slots|
    ensures |SendDisconnects(s, i, n).mappings.entries| == |s.mappings.entries|
    decreases n
  {
    if n > 0 {
      TellSizesStay(SendClient(s, i, Disconnect), i, n - 1);
    }
  }

  lemma NothingToStop(a: Aead, s: ServerState)
    requires !s.running
    ensures Step(a, s, StopEvent) == s && Step(a, s, DisconnectAllEvent) == s
  {
  }

  /** A start opens the given number of slots under a new challenge key. A server that was running is
      stopped first. */
  lemma ServerStarts(a: Aead, s: ServerState, max: nat, key: Key)
    requires 0 < max <= |s.slots|
    ensures var idle := Step(a, s, StopEvent);
            var r := Step(a, s, StartEvent(max, key));
            && r == idle.(running := true, maxClients := max, numConnected := 0, challengeSequence := 0,
                          challengeKey := key, slots := r.slots, trace := Then(idle.trace, Started))
            && |r.slots| == |s.slots|
            && (forall i :: 0 <= i < |s.slots| ==>
                  r.slots[i] == if i < max then idle.slots[i].(queue := Empty(|idle.slots[i].queue.slots|)) else idle.slots[i])
  {
    hide Stop;
  }

  // ----- loopback clients -----

  /** A loopback client takes its slot at once, confirmed and without address or mapping. */
  lemma LoopbackConnects(a: Aead, s: ServerState, i: nat, id: uint64, userData: UserData)
    requires Tables(s) && Enabled(s, ConnectLoopbackEvent(i, id, userData))
    ensures Step(a, s, ConnectLoopbackEvent(i, id, userData))
         == s.(numConnected := s.numConnected + 1,
               slots := s.slots[i := s.slots[i].(connected := true, loopback := true, confirmed := true,
                                                 encryptionIndex := -1, clientId := id, sequence := 0,
                                                 address := NoAddress, lastSend := s.time, lastReceive := s.time,
                                                 userData := userData)],
               trace := Then(s.trace, Accepted(i, NoAddress, id, Keys(ZERO_KEY, ZERO_KEY))))
  {
    FreeSlotExists(s);
    SlotIsOpen(s, i);
    assert !s.fault;
    hide Tables;
  }

  lemma SlotIsOpen(s: ServerState, i: nat)
    requires i < s.maxClients && !s.slots[i].connected
    ensures FindFree(s.slots, 0, s.maxClients) < s.maxClients
  {
  }

  /** It gives the slot back: what nobody took is freed, and nothing is sent. */
  lemma LoopbackLeaves(a: Aead, s: ServerState, i: nat)
    requires Tables(s) && Enabled(s, DisconnectLoopbackEvent(i))
    ensures var r := Step(a, s, DisconnectLoopbackEvent(i));
            && r.slots == s.slots[i := Emptied(s.slots[i])]
            && (forall j: int :: SentTo(r.trace, j) == SentTo(s.trace, j))
            && r == s.(slots := r.slots, numConnected := s.numConnected - 1, trace := r.trace,
                       memory := s.memory.(freed := s.memory.freed + Ids(Contents(s.slots[i].queue))))
  {
    hide Tables, Drain, SentTo, Contents, Ids;
    RemoteRuns(s, i);
    LoopbackSlot(s, i);
    Drained(Box(s, i), i);
    SentUnchanged(Drain(Box(s, i), i).trace, Released(i));
  }

  lemma LoopbackSlot(s: ServerState, i: nat)
    requires Tables(s) && i < |s.slots| && s.slots[i].connected && s.slots[i].loopback
    ensures !s.fault && s.slots[i].window == Fresh(|s.slots[i].window.received|)
  {
  }

  /** Its payloads go straight to the queue, and are freed when that is full. */
  lemma LoopbackPayloadArrives(a: Aead, s: ServerState, i: nat, data: bytes, q: uint64)
    requires Enabled(s, LoopbackPacketEvent(i, data, q))
    ensures var r := Step(a, s, LoopbackPacketEvent(i, data, q));
            var x := s.slots[i];
            var item := Item(s.memory.next, data, q);
            var full := |Contents(x.queue)| >= |x.queue.slots|;
            && |r.slots| == |s.slots|
            && Contents(r.slots[i].queue) == (if full then Contents(x.queue) else Contents(x.queue) + [item])
            && r.slots == s.slots[i := x.(lastReceive := s.time, queue := r.slots[i].queue)]
            && r == s.(slots := r.slots,
                       memory := s.memory.(next := s.memory.next + 1,
                                           freed := s.memory.freed + if full then multiset{item.id} else multiset{}),
                       trace := Then(s.trace, if full then Dropped(i, item) else Queued(i, NoAddress, item)))
  {
    hide Enqueue, Contents;
    QueuesOrDrops(Inbox(s.slots[i].queue, Alloc(s.memory).1, s.trace), i, Item(s.memory.next, data, q));
  }

  lemma QueuesOrDrops(b: Inbox, slot: int, item: Item)
    ensures var r := Enqueue(b, slot, NoAddress, item);
            var full := |Contents(b.queue)| >= |b.queue.slots|;
            && Contents(r.queue) == (if full then Contents(b.queue) else Contents(b.queue) + [item])
            && r.memory == b.memory.(freed := b.memory.freed + if full then multiset{item.id} else multiset{})
            && r.trace == Then(b.trace, if full then Dropped(slot, item) else Queued(slot, NoAddress, item))
  {
    PushContents(b.queue, item);
    hide Contents, Push;
  }
}
