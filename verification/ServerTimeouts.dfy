/** A client that falls silent is dropped, although an update drops one client at most. */
module ServerTimeouts {
  import opened Types
  import opened Crypto
  import opened Tokens
  import opened Packets
  import opened Queue
  import opened Traces
  import opened Memory
  import opened Inbox
  import opened Server
  import opened ServerTables
  import opened ServerReadings
  import ServerLog
  import N = ServerNonces
  import M = Mappings
  import H = TokenHistory

  /** Sending leaves everything a timeout depends on alone. */
  ghost predicate SameClocks(s: ServerState, r: ServerState) {
    && |r.slots| == |s.slots| && r.maxClients == s.maxClients && r.numConnected == s.numConnected
    && r.time == s.time && r.running == s.running
    && (forall j :: 0 <= j < |s.slots| ==>
          && r.slots[j].connected == s.slots[j].connected && r.slots[j].loopback == s.slots[j].loopback
          && r.slots[j].timeout == s.slots[j].timeout && r.slots[j].lastReceive == s.slots[j].lastReceive)
  }

  lemma SendClientKeepsClocks(s: ServerState, i: nat, p: Packet)
    requires i < |s.slots|
    ensures SameClocks(s, SendClient(s, i, p))
  {
    hide SendClient, Inc64;
    ServerLog.SendClientShape(s, i, p);
  }

  lemma {:induction false} SendFromKeepsClocks(s: ServerState, i: nat)
    requires i <= s.maxClients
    ensures SameClocks(s, SendFrom(s, i))
    decreases s.maxClients - i
  {
    hide SendClient;
    if i < s.maxClients {
      SendClientKeepsClocks(s, i, KeepAlivePacket(s, i));
      SendFromKeepsClocks(if KeepAliveDue(s, s.slots[i]) then SendClient(s, i, KeepAlivePacket(s, i)) else s, i + 1);
    }
  }

  lemma ReleaseFrees(s: ServerState, k: nat)
    requires k < |s.slots| && s.running && k < s.maxClients && Remote(s.slots[k])
    ensures var r := DisconnectInternal(s, k, false);
            && !r.slots[k].connected && r.numConnected == s.numConnected - 1 && r.running == s.running
            && r.time == s.time
            && (forall j :: 0 <= j < |s.slots| && j != k ==> r.slots[j] == s.slots[j])
  {
    hide Drain, M.Remove;
  }

  /** The client in the slot has a timeout, and its last packet came at least that long ago. */
  predicate Overdue(x: Slot, time: real) {
    x.connected && !x.loopback && x.timeout > 0 && x.lastReceive + x.timeout as real <= time
  }

  /** The first of the slots in use whose client is overdue. */
  predicate FirstOverdue(s: ServerState, time: real, i: nat) {
    i < s.maxClients && Overdue(s.slots[i], time) && (forall j :: 0 <= j < i ==> !Overdue(s.slots[j], time))
  }

  /** An update without datagrams while the client of slot i is overdue drops one client, which is
      that client or leaves it as overdue as it was; a slot that is free stays free. */
  lemma QuietUpdate(a: Aead, s: ServerState, time: real, now: uint64, i: nat)
    requires s.running && i < s.maxClients
    ensures var r := Update(a, s, time, [], now); var x := s.slots[i];
            && |r.slots| == |s.slots| && r.maxClients == s.maxClients && r.running && r.time == time
            && (!x.connected ==> !r.slots[i].connected)
            && (x.connected && !x.loopback && x.timeout > 0 && x.lastReceive + x.timeout as real <= time ==>
                  && r.numConnected == s.numConnected - 1
                  && (r.slots[i].connected ==>
                        !r.slots[i].loopback && r.slots[i].timeout == x.timeout && r.slots[i].lastReceive == x.lastReceive))
  {
    hide SendFrom, DisconnectInternal;
    var ticked := s.(time := time);
    assert ReceiveAll(a, ticked, [], now) == ticked;
    SendFromKeepsClocks(ticked, 0);
    var sent := SendFrom(ticked, 0);
    var k := FindTimedOut(sent, 0, sent.maxClients);
    if k < sent.maxClients {
      ReleaseFrees(sent, k);
    }
  }

  // ----- exactly what an update without datagrams does -----

  /** A client on the network that was sent nothing for 0.1 s. */
  predicate Waiting(x: Slot, time: real) {
    x.connected && !x.loopback && x.lastSend + 0.1 <= time
  }

  /** The keep-alive packet for the client in slot i. */
  function KeepAliveTo(s: ServerState, i: nat): Effect
    requires i < |s.slots|
  {
    var x := s.slots[i];
    var e := x.encryptionIndex;
    Sent(i, x.address, KeepAlive(ToInt32(i % TWO32), ToInt32(s.maxClients % TWO32)), x.sequence,
         if 0 <= e < |s.mappings.entries| then s.mappings.entries[e].sendKey else ZERO_KEY, s.protocolId)
  }

  /** After the keep-alive packets of the slots from i on. */
  ghost predicate KeptAlive(s: ServerState, r: ServerState, i: nat) {
    && |r.slots| == |s.slots| && SameKeysAs(s, r)
    && r == s.(mappings := r.mappings, slots := r.slots, trace := r.trace)
    && (forall j :: 0 <= j < |s.slots| ==>
          && r.slots[j] == (if i <= j && Waiting(s.slots[j], s.time)
                            then s.slots[j].(sequence := (s.slots[j].sequence + 1) % TWO64, lastSend := s.time)
                            else s.slots[j])
          && SentTo(r.trace, j) == SentTo(s.trace, j)
                                   + (if i <= j && Waiting(s.slots[j], s.time) then [KeepAliveTo(s, j)] else []))
    && SentTo(r.trace, GLOBAL) == SentTo(s.trace, GLOBAL)
  }

  ghost predicate SameKeysAs(s: ServerState, r: ServerState) {
    && |r.mappings.entries| == |s.mappings.entries|
    && (forall k :: 0 <= k < |s.mappings.entries| ==> KeysOf(r.mappings.entries[k]) == KeysOf(s.mappings.entries[k]))
  }

  lemma KeepAliveOne(s: ServerState, i: nat)
    requires Tables(s) && i < |s.slots| && Remote(s.slots[i])
    ensures var r := SendClient(s, i, KeepAlivePacket(s, i));
            && Tables(r) && SameKeysAs(s, r)
            && r == s.(mappings := r.mappings, slots := r.slots, trace := Then(s.trace, KeepAliveTo(s, i)))
            && r.slots == s.slots[i := s.slots[i].(sequence := (s.slots[i].sequence + 1) % TWO64, lastSend := s.time)]
  {
    N.SendMappings(s, i, KeepAlivePacket(s, i));
    SendClientTables(s, i, KeepAlivePacket(s, i));
    hide Tables, SendClient;
  }

  lemma {:induction false} KeepsAlive(s: ServerState, i: nat)
    requires Tables(s) && i <= s.maxClients
    ensures KeptAlive(s, SendFrom(s, i), i) && Tables(SendFrom(s, i))
    decreases s.maxClients - i
  {
    hide SendClient, KeptAlive, Tables, KeepAliveTo;
    if i < s.maxClients {
      if KeepAliveDue(s, s.slots[i]) {
        KeepAliveOne(s, i);
        var r := SendClient(s, i, KeepAlivePacket(s, i));
        KeepsAlive(r, i + 1);
        KeptAliveStep(s, r, SendFrom(r, i + 1), i);
      } else {
        KeepsAlive(s, i + 1);
        KeptAliveSkip(s, SendFrom(s, i + 1), i);
      }
    } else {
      BeyondIsFree(s);
      NobodyToKeep(s, i);
    }
  }

  lemma KeptAliveSkip(s: ServerState, u: ServerState, i: nat)
    requires i < |s.slots| && !Waiting(s.slots[i], s.time) && KeptAlive(s, u, i + 1)
    ensures KeptAlive(s, u, i)
  {
    hide SentTo, KeepAliveTo;
  }

  lemma NobodyToKeep(s: ServerState, i: nat)
    requires forall j :: i <= j < |s.slots| ==> !s.slots[j].connected
    ensures KeptAlive(s, s, i)
  {
    hide SentTo, KeepAliveTo;
  }

  lemma BeyondIsFree(s: ServerState)
    requires Tables(s)
    ensures forall j :: s.maxClients <= j < |s.slots| ==> !s.slots[j].connected
  {
  }

  lemma KeepAliveSaid(s: ServerState, i: nat)
    requires i < |s.slots|
    ensures forall j: int ::
              SentTo(Then(s.trace, KeepAliveTo(s, i)), j) == SentTo(s.trace, j) + (if j == i then [KeepAliveTo(s, i)] else [])
  {
  }

  lemma KeptAliveStep(s: ServerState, r: ServerState, u: ServerState, i: nat)
    requires i < |s.slots| && Waiting(s.slots[i], s.time) && SameKeysAs(s, r)
    requires r == s.(mappings := r.mappings, slots := r.slots, trace := Then(s.trace, KeepAliveTo(s, i)))
    requires r.slots == s.slots[i := s.slots[i].(sequence := (s.slots[i].sequence + 1) % TWO64, lastSend := s.time)]
    requires KeptAlive(r, u, i + 1)
    ensures KeptAlive(s, u, i)
  {
    hide SentTo;
    KeepAliveSaid(s, i);
    forall j | 0 <= j < |s.slots|
      ensures u.slots[j] == (if i <= j && Waiting(s.slots[j], s.time)
                             then s.slots[j].(sequence := (s.slots[j].sequence + 1) % TWO64, lastSend := s.time)
                             else s.slots[j])
      ensures SentTo(u.trace, j) == SentTo(s.trace, j)
                                    + (if i <= j && Waiting(s.slots[j], s.time) then [KeepAliveTo(s, j)] else [])
    {
      if j != i {
        SameKeepAlive(s, r, i, j);
      }
    }
  }

  lemma SameKeepAlive(s: ServerState, r: ServerState, i: nat, j: nat)
    requires SameKeysAs(s, r) && j < |s.slots| == |r.slots| && r.slots[j] == s.slots[j]
    requires r.maxClients == s.maxClients && r.protocolId == s.protocolId
    ensures KeepAliveTo(r, j) == KeepAliveTo(s, j)
  {
    var e := s.slots[j].encryptionIndex;
    if 0 <= e < |s.mappings.entries| {
      assert KeysOf(r.mappings.entries[e]) == KeysOf(s.mappings.entries[e]);
    }
  }

  /** An update without datagrams sends one keep-alive packet to every client on the network that was
      sent nothing for 0.1 s, numbered next for that client, and sends nothing else; then it frees the
      first slot whose client is overdue, if there is one, and changes no other slot. */
  lemma QuietUpdateExactly(a: Aead, s: ServerState, time: real, now: uint64, i: nat)
    requires Tables(s) && RecentlySent(s) && OnTime(s, time) && s.running && i < |s.slots|
    ensures var r := Update(a, s, time, [], now);
            var x := s.slots[i];
            && |r.slots| == |s.slots|
            && SentTo(r.trace, i) == SentTo(s.trace, i) + (if Waiting(x, time) then [KeepAliveTo(s, i)] else [])
            && SentTo(r.trace, GLOBAL) == SentTo(s.trace, GLOBAL)
            && (FirstOverdue(s, time, i) ==> Clean(r.slots[i]) && r.numConnected == s.numConnected - 1)
            && (!FirstOverdue(s, time, i) ==>
                  r.slots[i] == if Waiting(x, time) then x.(sequence := (x.sequence + 1) % TWO64, lastSend := time) else x)
            && ((forall j :: 0 <= j < s.maxClients ==> !Overdue(s.slots[j], time)) ==> r.numConnected == s.numConnected)
  {
    hide Tables, RecentlySent, OnTime, SendFrom, CheckTimeouts, SentTo, Clean, Update, Waiting, Overdue, KeptAlive,
         KeepAliveTo;
    TickTables(s, time);
    var ticked := s.(time := time);
    KeepsAlive(ticked, 0);
    SameKeepAlive(s, ticked, i, i);
    KeptThenChecked(ticked, SendFrom(ticked, 0), i);
    QuietIs(a, s, time, now);
  }

  lemma KeptThenChecked(s: ServerState, sent: ServerState, i: nat)
    requires KeptAlive(s, sent, 0) && Tables(sent) && s.running && i < |s.slots|
    ensures sent.running
    ensures var r := CheckTimeouts(sent);
            var x := s.slots[i];
            && |r.slots| == |s.slots|
            && SentTo(r.trace, i) == SentTo(s.trace, i) + (if Waiting(x, s.time) then [KeepAliveTo(s, i)] else [])
            && SentTo(r.trace, GLOBAL) == SentTo(s.trace, GLOBAL)
            && (FirstOverdue(s, s.time, i) ==> Clean(r.slots[i]) && r.numConnected == s.numConnected - 1)
            && (!FirstOverdue(s, s.time, i) ==>
                  r.slots[i] == if Waiting(x, s.time) then x.(sequence := (x.sequence + 1) % TWO64, lastSend := s.time) else x)
            && ((forall j :: 0 <= j < s.maxClients ==> !Overdue(s.slots[j], s.time)) ==> r.numConnected == s.numConnected)
  {
    hide Tables, CheckTimeouts, SentTo, Clean, Waiting, Overdue, FirstOverdue, KeptAlive, KeepAliveTo;
    KeptSlot(s, sent, i);
    KeptOverdue(s, sent, i);
    ChecksFirst(sent, i);
  }

  lemma KeptSlot(s: ServerState, r: ServerState, i: nat)
    requires KeptAlive(s, r, 0) && i < |s.slots|
    ensures |r.slots| == |s.slots| && r.running == s.running && r.time == s.time && r.maxClients == s.maxClients
    ensures r.numConnected == s.numConnected && SentTo(r.trace, GLOBAL) == SentTo(s.trace, GLOBAL)
    ensures SentTo(r.trace, i) == SentTo(s.trace, i) + (if Waiting(s.slots[i], s.time) then [KeepAliveTo(s, i)] else [])
    ensures r.slots[i] == (if Waiting(s.slots[i], s.time)
                           then s.slots[i].(sequence := (s.slots[i].sequence + 1) % TWO64, lastSend := s.time)
                           else s.slots[i])
  {
    hide SentTo, KeepAliveTo, Waiting;
  }

  lemma QuietIs(a: Aead, s: ServerState, time: real, now: uint64)
    requires s.running && SendFrom(s.(time := time), 0).running
    ensures Update(a, s, time, [], now) == CheckTimeouts(SendFrom(s.(time := time), 0))
  {
    assert ReceiveAll(a, s.(time := time), [], now) == s.(time := time);
    hide ReceiveAll, SendFrom, CheckTimeouts;
  }

  lemma KeptOverdue(s: ServerState, r: ServerState, i: nat)
    requires KeptAlive(s, r, 0) && i < |s.slots|
    ensures FirstOverdue(r, s.time, i) <==> FirstOverdue(s, s.time, i)
    ensures (forall j :: 0 <= j < s.maxClients ==> !Overdue(r.slots[j], s.time))
            <==> (forall j :: 0 <= j < s.maxClients ==> !Overdue(s.slots[j], s.time))
  {
    hide SentTo, KeepAliveTo;
    assert forall j :: 0 <= j < |s.slots| ==> (Overdue(r.slots[j], s.time) <==> Overdue(s.slots[j], s.time));
    hide Overdue;
  }

  lemma ChecksFirst(s: ServerState, i: nat)
    requires Tables(s) && s.running && i < |s.slots|
    ensures var r := CheckTimeouts(s);
            && |r.slots| == |s.slots| && (forall j: int :: SentTo(r.trace, j) == SentTo(s.trace, j))
            && (if FirstOverdue(s, s.time, i) then Clean(r.slots[i]) && r.numConnected == s.numConnected - 1
                else r.slots[i] == s.slots[i])
            && ((forall j :: 0 <= j < s.maxClients ==> !Overdue(s.slots[j], s.time)) ==> r.numConnected == s.numConnected)
  {
    hide Tables, DisconnectInternal, SentTo, Clean;
    var k := FindTimedOut(s, 0, s.maxClients);
    assert forall j :: 0 <= j < |s.slots| ==> (TimedOut(s, s.slots[j]) <==> Overdue(s.slots[j], s.time));
    if k < s.maxClients {
      DropsQuietly(s, k);
    }
  }

  /** Dropping an overdue client sends it nothing. */
  lemma DropsQuietly(s: ServerState, k: nat)
    requires Tables(s) && k < |s.slots| && Remote(s.slots[k])
    ensures var r := DisconnectInternal(s, k, false);
            && |r.slots| == |s.slots| && Clean(r.slots[k]) && r.numConnected == s.numConnected - 1
            && (forall j :: 0 <= j < |s.slots| && j != k ==> r.slots[j] == s.slots[j])
            && (forall j: int :: SentTo(r.trace, j) == SentTo(s.trace, j))
  {
    RemoteRuns(s, k);
    DrainLedger(Box(s, k), k);
    PopAllSendsNothing(Box(s, k), k);
    assert SlotOk(s.slots[k]);
    hide Tables, PopAll, M.Remove, SlotOk;
  }

  lemma {:induction false} PopAllSendsNothing(b: Inbox, slot: int)
    ensures forall j: int :: SentTo(PopAll(b, slot).trace, j) == SentTo(b.trace, j)
    decreases b.queue.num
  {
    PopContents(b.queue);
    var (item, rest) := Pop(b.queue);
    if item.Some? {
      PopAllSendsNothing(Inbox(rest, Free(b.memory, item.value.id), Then(b.trace, Discarded(slot, item.value))), slot);
    }
  }

  // ----- with datagrams: nobody else is dropped -----

  /** How many of the packets are disconnect packets. */
  function DisconnectsIn(es: seq<Effect>): nat {
    if es == [] then 0
    else
      DisconnectsIn(es[..|es| - 1])
      + if es[|es| - 1].Processed? && es[|es| - 1].packet.Disconnect? then 1 else 0
  }

  /** How many disconnect packets the server has processed. */
  function DisconnectsRead(t: Trace): nat {
    DisconnectsIn(Readings(t))
  }

  lemma OneReading(es: seq<Effect>, e: Effect)
    ensures DisconnectsIn(es + [e]) == DisconnectsIn(es) + if e.Processed? && e.packet.Disconnect? then 1 else 0
  {
    assert (es + [e])[..|es|] == es;
  }

  /** Every client on the network keeps its slot; it may have been heard. */
  ghost predicate Stays(s: ServerState, r: ServerState) {
    && |r.slots| == |s.slots| && r.time == s.time && r.maxClients == s.maxClients && r.running == s.running
    && (forall i :: 0 <= i < |s.slots| && Remote(s.slots[i]) ==>
          && Remote(r.slots[i]) && r.slots[i].address == s.slots[i].address
          && r.slots[i].clientId == s.slots[i].clientId && r.slots[i].timeout == s.slots[i].timeout
          && (r.slots[i].lastReceive == s.slots[i].lastReceive || r.slots[i].lastReceive == s.time))
  }

  lemma StaysTwice(s: ServerState, r: ServerState, u: ServerState)
    requires Stays(s, r) && Stays(r, u)
    ensures Stays(s, u)
  {
  }

  /** What does not touch the slots. */
  lemma SameSlotsStay(s: ServerState)
    ensures forall r: ServerState ::
              r.slots == s.slots && r.time == s.time && r.maxClients == s.maxClients && r.running == s.running ==> Stays(s, r)
  {
  }

  lemma RequestStays(a: Aead, s: ServerState, from: Address, data: PrivateData)
    ensures Stays(s, ProcessRequest(a, s, from, data))
  {
    RequestFrame(a, s, from, data);
    hide ProcessRequest, ReadPrivate, M.Add;
  }

  lemma SendStays(s: ServerState, i: nat, p: Packet)
    requires i < |s.slots|
    ensures Stays(s, SendClient(s, i, p))
  {
    hide M.Touch;
  }

  lemma ConnectStays(s: ServerState, i: nat, from: Address, id: uint64, e: int, timeout: int32, userData: UserData)
    requires i < |s.slots|
    ensures Stays(s, ConnectClient(s, i, from, id, e, timeout, userData))
  {
    if s.numConnected + 1 <= s.maxClients && !s.slots[i].connected && 0 <= e < s.mappings.num {
      var joined := Seat(s, i, Taken(s, s.slots[i], from, id, e, timeout, userData));
      assert Stays(s, joined);
      SendStays(joined, i, KeepAlivePacket(joined, i));
      hide SendClient, Seat, Stays;
      StaysTwice(s, joined, SendClient(joined, i, KeepAlivePacket(joined, i)));
    }
    hide SendClient, Seat;
  }

  lemma ResponseStays(a: Aead, s: ServerState, from: Address, sequence: uint64, data: ChallengeData, index: int)
    ensures Stays(s, ProcessResponse(a, s, from, sequence, data, index))
  {
    hide OpenChallenge, ConnectClient, FindById, FindByAddress, FindFree, M.Touch, Inc64, Stays;
    SameSlotsStay(s);
    var answer := OpenChallenge(a, data, sequence, s.challengeKey);
    if answer.Some? && 0 <= index < s.mappings.num {
      var i := FindFree(s.slots, 0, s.maxClients);
      if i < s.maxClients {
        ConnectStays(s, i, from, answer.value.clientId, index, s.mappings.entries[index].timeout, answer.value.userData);
      }
    }
  }

  lemma HandleStays(a: Aead, s: ServerState, from: Address, p: Packet, index: int, client: nat)
    requires client <= |s.slots| && !p.Disconnect?
    ensures Stays(s, Handle(a, s, from, p, index, client))
  {
    hide ProcessRequest, ProcessResponse;
    match p
    case Request(_, _, _, _, data) => RequestStays(a, s, from, data);
    case Response(n, data) => ResponseStays(a, s, from, n, data, index);
    case _ =>
  }

  /** A packet read keeps every client, unless it is a disconnect packet, and is counted if it is. */
  ghost predicate Counts(s: ServerState, r: ServerState) {
    && DisconnectsRead(r.trace) >= DisconnectsRead(s.trace) && r.maxClients == s.maxClients
    && |r.slots| == |s.slots| && r.time == s.time && r.running == s.running
    && (DisconnectsRead(r.trace) == DisconnectsRead(s.trace) ==> Stays(s, r))
  }

  lemma CountsTwice(s: ServerState, r: ServerState, u: ServerState)
    requires Counts(s, r) && Counts(r, u)
    ensures Counts(s, u)
  {
    hide DisconnectsRead;
  }

  lemma DeliverCounts(a: Aead, s: ServerState, from: Address, reading: Reading, index: int, client: nat)
    requires client <= |s.slots|
    ensures Counts(s, Deliver(a, s, from, reading, index, client))
  {
    if reading.Some? {
      var (p, q) := reading.value;
      if p.Payload? && client < |s.slots| {
        PayloadCounts(a, s, from, p, q, index, client);
      } else {
        OtherCounts(a, s, from, p, q, index, client);
      }
    }
  }

  lemma PayloadCounts(a: Aead, s: ServerState, from: Address, p: Packet, q: uint64, index: int, client: nat)
    requires client < |s.slots| && p.Payload?
    ensures Counts(s, Deliver(a, s, from, Some((p, q)), index, client))
  {
    hide Enqueue, DisconnectsIn, Readings;
    var (id, memory) := Alloc(s.memory);
    var e := Processed(from, p, q, KeyAt(s, index));
    var seen := s.(memory := memory, trace := Then(s.trace, e));
    SeenCounts(s.trace, e);
    EnqueueEffect(Box(Hear(seen, client), client), client, from, Item(id, p.data, q));
    var r := Deliver(a, s, from, Some((p, q)), index, client);
    assert DisconnectsRead(r.trace) == DisconnectsRead(seen.trace) by {
      OtherReading(seen.trace, r.trace.last);
    }
  }

  /** The disconnect packets read, once one more packet was. */
  lemma SeenCounts(t: Trace, e: Effect)
    requires e.Processed?
    ensures DisconnectsRead(Then(t, e)) == DisconnectsRead(t) + if e.packet.Disconnect? then 1 else 0
  {
    OneReading(Readings(t), e);
    assert Readings(Then(t, e)) == Readings(t) + [e];
    hide DisconnectsIn, Readings;
  }

  lemma OtherReading(t: Trace, e: Effect)
    requires !e.Processed?
    ensures DisconnectsRead(Then(t, e)) == DisconnectsRead(t)
  {
  }

  lemma OtherCounts(a: Aead, s: ServerState, from: Address, p: Packet, q: uint64, index: int, client: nat)
    requires client <= |s.slots| && !(p.Payload? && client < |s.slots|)
    ensures Counts(s, Deliver(a, s, from, Some((p, q)), index, client))
  {
    hide Readings, DisconnectsIn, Handle, Stays, Matched, Unsaid;
    var (id, memory) := Alloc(s.memory);
    var e := Processed(from, p, q, KeyAt(s, index));
    var seen := s.(memory := memory, trace := Then(s.trace, e));
    SeenCounts(s.trace, e);
    HandleBlind(a, seen, from, p, index, client);
    var h := Handle(a, seen, from, p, index, client);
    if p.Disconnect? {
      DisconnectFrame(a, seen, from, p, index, client);
    } else {
      HandleStays(a, seen, from, p, index, client);
      StaysSeen(s, seen, h, h.(memory := Free(h.memory, id)));
    }
  }

  lemma DisconnectFrame(a: Aead, s: ServerState, from: Address, p: Packet, index: int, client: nat)
    requires client <= |s.slots| && p.Disconnect?
    ensures var r := Handle(a, s, from, p, index, client);
            r.maxClients == s.maxClients && |r.slots| == |s.slots| && r.time == s.time && r.running == s.running
  {
    hide DisconnectInternal;
    if client < |s.slots| {
      LetGoFrame(s, client);
    }
  }

  lemma StaysSeen(s: ServerState, seen: ServerState, h: ServerState, r: ServerState)
    requires seen == s.(memory := seen.memory, trace := seen.trace) && Stays(seen, h) && r == h.(memory := r.memory)
    ensures Stays(s, r) && r.maxClients == s.maxClients && |r.slots| == |s.slots| && r.time == s.time && r.running == s.running
  {
  }

  lemma LetGoFrame(s: ServerState, i: nat)
    requires i < |s.slots|
    ensures var r := DisconnectInternal(s, i, false);
            r.maxClients == s.maxClients && |r.slots| == |s.slots| && r.time == s.time && r.running == s.running
  {
    hide Drain, M.Remove;
  }

  lemma ReceiveCounts(a: Aead, s: ServerState, d: Datagram, now: uint64)
    ensures Counts(s, Receive(a, s, d, now))
  {
    hide Read, Deliver, FindByAddress, DisconnectsRead, M.Find;
    if s.running && |d.data| > 1 {
      var (client, index, m) := Route(s, d.from);
      var routed := s.(mappings := m);
      if !(index != -1 && !(0 <= index < m.num)) && !(index == -1 && d.data[0] != 0) {
        var key := if index == -1 then None else Some(m.entries[index].receiveKey);
        var (reading, w) := Read(a, s, d, now, client, key);
        var moved := PutWindow(routed, client, w);
        assert Counts(s, moved);
        DeliverCounts(a, moved, d.from, reading, index, client);
        hide Counts, Route, PutWindow;
        CountsTwice(s, moved, Deliver(a, moved, d.from, reading, index, client));
      }
    }
  }

  lemma {:induction false} ReceiveAllCounts(a: Aead, s: ServerState, ds: seq<Datagram>, now: uint64)
    ensures Counts(s, ReceiveAll(a, s, ds, now))
    decreases |ds|
  {
    hide Receive, DisconnectsRead;
    if ds != [] {
      ReceiveCounts(a, s, ds[0], now);
      ReceiveAllCounts(a, Receive(a, s, ds[0], now), ds[1..], now);
      hide Counts;
      CountsTwice(s, Receive(a, s, ds[0], now), ReceiveAll(a, s, ds, now));
    }
  }

  /** An update that processes no disconnect packet takes the slot from no client that is not overdue,
      whatever datagrams arrive. */
  lemma OnlyOverdueAreDropped(a: Aead, s: ServerState, time: real, ds: seq<Datagram>, now: uint64, i: nat)
    requires s.running && i < s.maxClients && s.slots[i].connected && !s.slots[i].loopback
    requires !(s.slots[i].timeout > 0 && s.slots[i].lastReceive + s.slots[i].timeout as real <= time)
    requires DisconnectsRead(Update(a, s, time, ds, now).trace) == DisconnectsRead(s.trace)
    ensures var r := Update(a, s, time, ds, now);
            && i < |r.slots| && r.slots[i].connected && !r.slots[i].loopback
            && r.slots[i].address == s.slots[i].address && r.slots[i].clientId == s.slots[i].clientId
  {
    var ticked := s.(time := time);
    ReceiveAllCounts(a, ticked, ds, now);
    var received := ReceiveAll(a, ticked, ds, now);
    SendFromBlind(received, 0);
    SendFromKeepsClients(received, 0);
    var sent := SendFrom(received, 0);
    var k := FindTimedOut(sent, 0, sent.maxClients);
    if k < sent.maxClients {
      DisconnectBlind(sent, k, false);
      ReleaseFrees(sent, k);
    }
    hide ReceiveAll, SendFrom, DisconnectInternal, Readings, Matched, Unsaid;
    assert Stays(ticked, received);
    assert !TimedOut(sent, sent.slots[i]);
  }

  /** Sending leaves every client in its slot. */
  ghost predicate SameClients(s: ServerState, r: ServerState) {
    SameClocks(s, r)
    && (forall j :: 0 <= j < |s.slots| ==>
          r.slots[j].address == s.slots[j].address && r.slots[j].clientId == s.slots[j].clientId)
  }

  lemma {:induction false} SendFromKeepsClients(s: ServerState, i: nat)
    requires i <= s.maxClients
    ensures SameClients(s, SendFrom(s, i))
    decreases s.maxClients - i
  {
    hide SendClient, SameClients;
    if i < s.maxClients {
      var r := if KeepAliveDue(s, s.slots[i]) then SendClient(s, i, KeepAlivePacket(s, i)) else s;
      SendKeepsClients(s, i, KeepAlivePacket(s, i));
      SendFromKeepsClients(r, i + 1);
      SameClientsTwice(s, r, SendFrom(r, i + 1));
    } else {
      SameClientsItself(s);
    }
  }

  lemma SendKeepsClients(s: ServerState, i: nat, p: Packet)
    requires i < |s.slots|
    ensures SameClients(s, SendClient(s, i, p)) && SameClients(s, s)
  {
    ServerLog.SendClientShape(s, i, p);
    hide SendClient, Inc64;
  }

  lemma SameClientsTwice(s: ServerState, r: ServerState, u: ServerState)
    requires SameClients(s, r) && SameClients(r, u)
    ensures SameClients(s, u)
  {
  }

  lemma SameClientsItself(s: ServerState)
    ensures SameClients(s, s)
  {
  }

  /** Updates at the given times with nothing received. */
  ghost function QuietRun(a: Aead, s: ServerState, times: seq<real>, now: uint64): ServerState
    decreases |times|
  {
    if times == [] then s else QuietRun(a, Update(a, s, times[0], [], now), times[1..], now)
  }

  ghost predicate OnTimeRun(a: Aead, s: ServerState, times: seq<real>, now: uint64)
    decreases |times|
  {
    times == [] || (OnTime(s, times[0]) && OnTimeRun(a, Update(a, s, times[0], [], now), times[1..], now))
  }

  lemma {:induction false} FreeStaysFree(a: Aead, s: ServerState, times: seq<real>, now: uint64, i: nat)
    requires s.running && i < s.maxClients && !s.slots[i].connected
    ensures i < |QuietRun(a, s, times, now).slots| && !QuietRun(a, s, times, now).slots[i].connected
    decreases |times|
  {
    hide Update;
    if times != [] {
      QuietUpdate(a, s, times[0], now, i);
      FreeStaysFree(a, Update(a, s, times[0], [], now), times[1..], now, i);
    }
  }

  lemma SomebodyIsCounted(s: ServerState, i: nat)
    requires Tables(s) && i < |s.slots| && s.slots[i].connected
    ensures s.numConnected >= 1
  {
    var y := s.slots[i].(connected := false);
    CountUpdate(s.slots, s.maxClients, i, y);
  }

  /** A silent client is dropped: a remote client that is overdue at the first of as many quiet
      updates as there are clients holds its slot no longer after the last of them, whatever
      other clients time out before it. */
  lemma {:induction false} SilentClientIsDropped(a: Aead, s: ServerState, times: seq<real>, now: uint64, i: nat)
    requires Tables(s) && RecentlySent(s) && s.running && OnTimeRun(a, s, times, now)
    requires i < s.maxClients && times != []
    requires var x := s.slots[i];
             x.connected && !x.loopback && x.timeout > 0 && x.lastReceive + x.timeout as real <= times[0]
    requires |times| >= s.numConnected
    ensures i < |QuietRun(a, s, times, now).slots| && !QuietRun(a, s, times, now).slots[i].connected
    decreases |times|
  {
    hide Update, Tables, RecentlySent, OnTime;
    QuietUpdate(a, s, times[0], now, i);
    UpdateTables(a, s, times[0], [], now);
    var r := Update(a, s, times[0], [], now);
    if r.slots[i].connected {
      SomebodyIsCounted(r, i);
      TimeGoesOn(r, times[1]);
      SilentClientIsDropped(a, r, times[1..], now, i);
    } else {
      FreeStaysFree(a, r, times[1..], now, i);
    }
  }

  lemma TimeGoesOn(s: ServerState, time: real)
    ensures OnTime(s, time) ==> s.time <= time
  {
  }
}
