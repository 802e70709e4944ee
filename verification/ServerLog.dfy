/** What the server's trace and its tables say about each other in every run: packets are
    conserved, payloads delivered once and in order, sequence numbers used once. */
module ServerLog {
  import opened Types
  import opened Crypto
  import opened Tokens
  import opened Packets
  import opened Replay
  import opened Queue
  import opened Traces
  import opened Memory
  import opened Inbox
  import opened Server
  import opened ServerTables
  import M = Mappings
  import H = TokenHistory

  // ----- the invariants -----

  /** The queue of one slot against the trace: over the whole run it is first-in first-out; within
      a connection the application has taken, in order, all but what the queue holds; and a payload
      is dropped only when it is full. */
  ghost predicate SlotQueue(t: Trace, i: int, x: Slot) {
    && QueuedItems(t, i) == LeftItems(t, i) + Contents(x.queue)
    && |x.queue.slots| == PACKET_QUEUE_SIZE && DropsWhenFull(t, i)
    && (x.connected ==> QueuedItemsSince(t, i) == HandedSince(t, i) + Contents(x.queue))
    && (!x.connected ==> Contents(x.queue) == [])
    && AttemptItems(t, i) == QueuedItemsSince(t, i)
  }

  /** The rest of the slot against the trace: the trace knows its client, its queue holds only what
      came from that client's address, no sequence below 2^63 was queued twice since the slot was
      given away and those queued would be refused, and the slot's sends count up from 0. */
  ghost predicate SlotClient(t: Trace, i: int, x: Slot) {
    && Seated(t, i) == TenantOf(x)
    && QueuedFromHolder(t, i)
    && (Remote(x) ==>
          && DistinctBelow63(QueuedSince(t, i))
          && (forall q :: q in QueuedSince(t, i) && q < TWO63 ==> AlreadyReceived(x.window, q).0))
    && CountsFrom(0, SentSince(t, i))
    && (x.connected ==> x.sequence == |SentSince(t, i)| % TWO64)
  }

  ghost predicate SlotLog(t: Trace, i: int, x: Slot) {
    SlotQueue(t, i, x) && SlotClient(t, i, x)
  }

  /** Where the global sequence numbers start: at 2^63, but at 0 once the server was stopped. */
  function GlobalBase(t: Trace): nat {
    if EverStopped(t) then 0 else TWO63
  }

  ghost predicate GlobalLog(t: Trace, globalSequence: uint64) {
    && CountsFrom(GlobalBase(t), SentSince(t, GLOBAL))
    && globalSequence == (GlobalBase(t) + |SentSince(t, GLOBAL)|) % TWO64
  }

  /** The packets queued in the first n slots. */
  ghost function QueuedIds(slots: seq<Slot>, n: nat): multiset<nat>
    requires n <= |slots|
  {
    if n == 0 then multiset{} else QueuedIds(slots, n - 1) + Ids(Contents(slots[n - 1].queue))
  }

  /** `fl` are the packets allocated and not yet placed: the one being processed, or none. */
  ghost predicate Conserves(s: ServerState, fl: multiset<nat>) {
    Balanced(s.memory, QueuedIds(s.slots, |s.slots|) + fl)
  }

  ghost predicate Log(s: ServerState, fl: multiset<nat>) {
    && (forall i :: 0 <= i < |s.slots| ==> SlotLog(s.trace, i, s.slots[i]))
    && GlobalLog(s.trace, s.globalSequence)
    && Conserves(s, fl)
  }

  lemma AddSame(x: multiset<nat>, y: multiset<nat>, p: multiset<nat>, q: multiset<nat>, z: multiset<nat>)
    requires x + p == y + q
    ensures x + z + p == y + z + q
  {
    assert x + z + p == (x + p) + z;
  }

  lemma {:induction false} QueuedIdsUpdate(slots: seq<Slot>, n: nat, i: nat, y: Slot)
    requires n <= |slots| && i < |slots|
    ensures if i < n then QueuedIds(slots[i := y], n) + Ids(Contents(slots[i].queue))
                          == QueuedIds(slots, n) + Ids(Contents(y.queue))
            else QueuedIds(slots[i := y], n) == QueuedIds(slots, n)
  {
    hide Ids, Contents;
    if n > 0 {
      QueuedIdsUpdate(slots, n - 1, i, y);
      if i < n - 1 {
        AddSame(QueuedIds(slots[i := y], n - 1), QueuedIds(slots, n - 1), Ids(Contents(slots[i].queue)),
                Ids(Contents(y.queue)), Ids(Contents(slots[n - 1].queue)));
      }
    }
  }

  lemma CancelSame(x: multiset<nat>, y: multiset<nat>, z: multiset<nat>)
    requires x + z == y + z
    ensures x == y
  {
    assert x == (x + z) - z && y == (y + z) - z;
  }

  lemma {:induction false} QueuedIdsNone(slots: seq<Slot>, n: nat)
    requires n <= |slots| && forall i :: 0 <= i < n ==> Contents(slots[i].queue) == []
    ensures QueuedIds(slots, n) == multiset{}
  {
    if n > 0 {
      QueuedIdsNone(slots, n - 1);
    }
  }

  lemma CreateLog(address: Address, protocolId: uint64, key: Key, f: bool, g: bool, time: real)
    ensures Log(Create(address, protocolId, key, f, g, time), multiset{})
  {
    var s := Create(address, protocolId, key, f, g, time);
    QueuedIdsNone(s.slots, |s.slots|);
  }

  // ----- one effect at a time -----

  /** The effect says nothing about slot i. */
  predicate Spares(e: Effect, i: int) {
    match e
    case Accepted(slot, _, _, _) => slot != i
    case Released(slot) => slot != i
    case Sent(slot, _, _, _, _, _) => slot != i
    case Queued(slot, _, _) => slot != i
    case Dropped(slot, _) => slot != i
    case Handed(slot, _) => slot != i
    case Discarded(slot, _) => slot != i
    case Changed(_, _) => false
    case Stopped => i != GLOBAL
    case _ => true
  }

  lemma SlotLogElsewhere(t: Trace, e: Effect, i: nat, x: Slot)
    requires SlotLog(t, i, x) && Spares(e, i)
    ensures SlotLog(Then(t, e), i, x)
  {
    hide Contents, AlreadyReceived;
  }

  lemma GlobalLogElsewhere(t: Trace, e: Effect, q: uint64)
    requires GlobalLog(t, q) && Spares(e, GLOBAL)
    ensures GlobalLog(Then(t, e), q)
  {
  }

  /** A step that changes one slot and has one effect, about that slot. */
  lemma SlotStep(s: ServerState, r: ServerState, i: nat, e: Effect, fl: multiset<nat>)
    requires Log(s, fl) && i < |s.slots| == |r.slots| && r.slots == s.slots[i := r.slots[i]]
    requires r.trace == Then(s.trace, e) && r.globalSequence == s.globalSequence
    requires forall j :: j != i ==> Spares(e, j)
    requires SlotLog(r.trace, i, r.slots[i])
    requires Conserves(r, fl)
    ensures Log(r, fl)
  {
    hide SlotLog, GlobalLog, Spares;
    assert Spares(e, GLOBAL);
    GlobalLogElsewhere(s.trace, e, s.globalSequence);
    forall j | 0 <= j < |r.slots|
      ensures SlotLog(r.trace, j, r.slots[j])
    {
      if j != i {
        SlotLogElsewhere(s.trace, e, j, s.slots[j]);
      }
    }
  }

  /** A step with an effect about no slot. */
  lemma QuietStep(s: ServerState, r: ServerState, e: Effect, fl: multiset<nat>)
    requires Log(s, fl) && r.slots == s.slots && r.trace == Then(s.trace, e)
    requires forall j :: j != GLOBAL ==> Spares(e, j)
    requires GlobalLog(r.trace, r.globalSequence)
    requires Conserves(r, fl)
    ensures Log(r, fl)
  {
    hide SlotLog, GlobalLog, Spares;
    forall j | 0 <= j < |r.slots|
      ensures SlotLog(r.trace, j, r.slots[j])
    {
      SlotLogElsewhere(s.trace, e, j, s.slots[j]);
    }
  }

  /** A step without effects that leaves what the slots' logs look at. */
  lemma SilentStep(s: ServerState, r: ServerState, fl: multiset<nat>)
    requires Log(s, fl) && |r.slots| == |s.slots| && r.trace == s.trace && r.globalSequence == s.globalSequence
    requires forall i :: 0 <= i < |s.slots| && r.slots[i] != s.slots[i] ==> SlotLog(s.trace, i, r.slots[i])
    requires Conserves(r, fl)
    ensures Log(r, fl)
  {
    hide SlotLog, GlobalLog;
  }

  lemma SameQueues(s: ServerState, r: ServerState, i: nat, fl: multiset<nat>)
    requires Conserves(s, fl) && i < |s.slots| == |r.slots| && r.slots == s.slots[i := r.slots[i]]
    requires r.memory == s.memory && r.slots[i].queue == s.slots[i].queue
    ensures Conserves(r, fl)
  {
    hide Contents, Ids, Balanced;
    QueuedIdsUpdate(s.slots, |s.slots|, i, r.slots[i]);
    CancelSame(QueuedIds(s.slots, |s.slots|), QueuedIds(r.slots, |r.slots|), Ids(Contents(s.slots[i].queue)));
  }

  // ----- sending -----

  lemma SendGlobalLog(s: ServerState, to: Address, p: Packet, key: Key, fl: multiset<nat>)
    requires Log(s, fl)
    ensures Log(SendGlobal(s, to, p, key), fl)
  {
    NextCount(GlobalBase(s.trace), SentSince(s.trace, GLOBAL), s.globalSequence);
    hide Balanced, SlotLog;
    QuietStep(s, SendGlobal(s, to, p, key), Sent(GLOBAL, to, p, s.globalSequence, key, s.protocolId), fl);
  }

  lemma SlotLogSend(t: Trace, i: nat, x: Slot, to: Address, p: Packet, key: Key, id: uint64, time: real)
    requires SlotLog(t, i, x) && x.connected
    ensures SlotLog(Then(t, Sent(i, to, p, x.sequence, key, id)), i, x.(sequence := Inc64(x.sequence), lastSend := time))
  {
    NextCount(0, SentSince(t, i), x.sequence);
    hide Contents, AlreadyReceived, Inc64;
  }

  /** A send either faults or sends one packet with the slot's next sequence. */
  lemma SendClientShape(s: ServerState, i: nat, p: Packet)
    requires i < |s.slots|
    ensures var r := SendClient(s, i, p); var x := s.slots[i];
            || r == s.(fault := true)
            || (&& r.trace.Then?
                && r.trace == Then(s.trace, Sent(i, x.address, p, x.sequence,
                                                 if r.trace.last.Sent? then r.trace.last.key else ZERO_KEY, s.protocolId))
                && r.slots == s.slots[i := x.(sequence := Inc64(x.sequence), lastSend := s.time)]
                && r == s.(mappings := r.mappings, slots := r.slots, trace := r.trace))
  {
    hide M.Touch, Inc64;
  }

  lemma SendClientLog(s: ServerState, i: nat, p: Packet, fl: multiset<nat>)
    requires Log(s, fl) && i < |s.slots| && s.slots[i].connected
    ensures Log(SendClient(s, i, p), fl)
  {
    hide SendClient, SlotLog, GlobalLog, Balanced, Inc64, QueuedIds;
    SendClientShape(s, i, p);
    var x := s.slots[i];
    var r := SendClient(s, i, p);
    if r == s.(fault := true) {
      SilentStep(s, r, fl);
    } else {
      var e := r.trace.last;
      SlotLogSend(s.trace, i, x, x.address, p, e.key, s.protocolId, s.time);
      SameQueues(s, r, i, fl);
      SlotStep(s, r, i, e, fl);
    }
  }

  lemma SendClientKeepsSlot(s: ServerState, i: nat, p: Packet)
    requires i < |s.slots|
    ensures var r := SendClient(s, i, p);
            && r.slots[i].connected == s.slots[i].connected && r.slots[i].loopback == s.slots[i].loopback
            && (forall j :: 0 <= j < |s.slots| && j != i ==> r.slots[j] == s.slots[j])
            && r.running == s.running && r.maxClients == s.maxClients && r.time == s.time
  {
    hide M.Touch, Inc64;
  }

  lemma {:induction false} SendDisconnectsLog(s: ServerState, i: nat, n: nat, fl: multiset<nat>)
    requires Log(s, fl) && i < |s.slots| && s.slots[i].connected
    ensures Log(SendDisconnects(s, i, n), fl)
    decreases n
  {
    hide Log, SendClient;
    if n > 0 {
      SendClientLog(s, i, Disconnect, fl);
      SendClientKeepsSlot(s, i, Disconnect);
      SendDisconnectsLog(SendClient(s, i, Disconnect), i, n - 1, fl);
    }
  }

  // ----- queues -----

  /** A queue operation on slot i whose ledger adds up for the slot adds up for the server. */
  lemma BoxConserves(s: ServerState, i: nat, b: Inbox, fl: multiset<nat>, after: multiset<nat>)
    requires Conserves(s, fl) && i < |s.slots|
    requires b.memory.next == s.memory.next
    requires Ids(Contents(b.queue)) + b.memory.held + b.memory.freed + after
          == Ids(Contents(s.slots[i].queue)) + s.memory.held + s.memory.freed + fl
    ensures Conserves(WithBox(s, i, b), after)
  {
    hide Contents, Ids, Allocated;
    var n := |s.slots|;
    var x := s.slots[i];
    var slots := s.slots[i := x.(queue := b.queue)];
    QueuedIdsUpdate(s.slots, n, i, x.(queue := b.queue));
    var u := s.memory.held + s.memory.freed + fl;
    var v := b.memory.held + b.memory.freed + after;
    assert Ids(Contents(b.queue)) + v == Ids(Contents(b.queue)) + b.memory.held + b.memory.freed + after;
    assert Ids(Contents(x.queue)) + u == Ids(Contents(x.queue)) + s.memory.held + s.memory.freed + fl;
    Rebalance(QueuedIds(s.slots, n), QueuedIds(slots, n), Ids(Contents(x.queue)), Ids(Contents(b.queue)), u, v);
    assert QueuedIds(s.slots, n) + fl + s.memory.held + s.memory.freed == QueuedIds(s.slots, n) + u;
    assert QueuedIds(slots, n) + after + b.memory.held + b.memory.freed == QueuedIds(slots, n) + v;
  }

  /** All queues go from x to y by one of them going from p to q, while the rest goes from u to v. */
  lemma Rebalance(x: multiset<nat>, y: multiset<nat>, p: multiset<nat>, q: multiset<nat>, u: multiset<nat>, v: multiset<nat>)
    requires y + p == x + q && q + v == p + u
    ensures y + v == x + u
  {
    assert (y + v) + p == (y + p) + v == (x + q) + v == x + (q + v) == x + (p + u) == (x + u) + p;
    CancelSame(y + v, x + u, p);
  }

  /** The slot's other fields may be replaced along with its queue. */
  lemma QueueOnlyConserves(s: ServerState, r: ServerState, fl: multiset<nat>)
    requires Conserves(s, fl) && |r.slots| == |s.slots| && r.memory == s.memory
    requires forall j :: 0 <= j < |s.slots| ==> Contents(r.slots[j].queue) == Contents(s.slots[j].queue)
    ensures Conserves(r, fl)
  {
    hide Balanced;
    SameContents(s.slots, r.slots, |s.slots|);
  }

  lemma {:induction false} SameContents(x: seq<Slot>, y: seq<Slot>, n: nat)
    requires n <= |x| == |y|
    requires forall j :: 0 <= j < n ==> Contents(y[j].queue) == Contents(x[j].queue)
    ensures QueuedIds(x, n) == QueuedIds(y, n)
  {
    hide Contents, Ids;
    if n > 0 {
      SameContents(x, y, n - 1);
    }
  }

  lemma SlotLogDrain(s: ServerState, i: nat, j: nat, x: Slot)
    requires i < |s.slots| && SlotLog(s.trace, j, x) && i != j
    ensures SlotLog(Drain(Box(s, i), i).trace, j, x)
  {
    hide Drain, Contents, AlreadyReceived;
    DrainElsewhere(Box(s, i), i, j);
  }

  /** A slot whose queue was drained and which is no longer connected. */
  lemma SlotLogVacated(s: ServerState, i: nat, y: Slot)
    requires i < |s.slots| && SlotLog(s.trace, i, s.slots[i])
    requires !y.connected && y.queue == Drain(Box(s, i), i).queue
    ensures SlotLog(Then(Drain(Box(s, i), i).trace, Released(i)), i, y)
  {
    hide Drain, AlreadyReceived, Contents;
    assert InOrder(Box(s, i), i);
    DrainOrder(Box(s, i), i);
    DrainElsewhere(Box(s, i), i, i);
    DrainLedger(Box(s, i), i);
    DrainSize(Box(s, i), i);
  }

  lemma GlobalLogDrain(s: ServerState, i: nat)
    requires i < |s.slots| && GlobalLog(s.trace, s.globalSequence)
    ensures GlobalLog(Drain(Box(s, i), i).trace, s.globalSequence)
  {
    hide Drain;
    DrainElsewhere(Box(s, i), i, GLOBAL);
  }

  /** Slot i is drained and given up. */
  lemma VacateLog(s: ServerState, r: ServerState, i: nat, fl: multiset<nat>)
    requires Log(s, fl) && i < |s.slots| == |r.slots|
    requires r.slots == s.slots[i := r.slots[i]] && !r.slots[i].connected
    requires r.slots[i].queue == Drain(Box(s, i), i).queue
    requires r.memory == Drain(Box(s, i), i).memory && r.trace == Then(Drain(Box(s, i), i).trace, Released(i))
    requires r.globalSequence == s.globalSequence
    ensures Log(r, fl)
  {
    hide Drain, SlotLog, GlobalLog, Conserves;
    GlobalLogDrain(s, i);
    GlobalLogElsewhere(Drain(Box(s, i), i).trace, Released(i), s.globalSequence);
    forall j | 0 <= j < |r.slots|
      ensures SlotLog(r.trace, j, r.slots[j])
    {
      if j == i {
        SlotLogVacated(s, i, r.slots[i]);
      } else {
        SlotLogDrain(s, i, j, s.slots[j]);
        SlotLogElsewhere(Drain(Box(s, i), i).trace, Released(i), j, s.slots[j]);
      }
    }
    DrainConserves(s, i, fl);
    QueueOnlyConserves(WithBox(s, i, Drain(Box(s, i), i)), r, fl);
  }

  lemma DrainConserves(s: ServerState, i: nat, fl: multiset<nat>)
    requires Conserves(s, fl) && i < |s.slots|
    ensures Conserves(WithBox(s, i, Drain(Box(s, i), i)), fl)
  {
    hide Drain, Contents, Conserves;
    DrainLedger(Box(s, i), i);
    var b := Drain(Box(s, i), i);
    var ids := Ids(Contents(s.slots[i].queue));
    assert Ids(Contents(b.queue)) == multiset{};
    assert multiset{} + s.memory.held + (s.memory.freed + ids) + fl == ids + s.memory.held + s.memory.freed + fl;
    BoxConserves(s, i, b, fl, fl);
  }

  lemma DisconnectLog(s: ServerState, i: nat, sendPackets: bool, fl: multiset<nat>)
    requires Log(s, fl) && i < |s.slots| && s.slots[i].connected
    ensures Log(DisconnectInternal(s, i, sendPackets), fl)
  {
    hide Log, SendDisconnects, Drain, M.Remove;
    FaultLog(s, fl);
    if sendPackets {
      SendDisconnectsLog(s, i, NUM_DISCONNECT_PACKETS, fl);
    }
    var d := if sendPackets then SendDisconnects(s, i, NUM_DISCONNECT_PACKETS) else s;
    VacateLog(d, Release(d, i), i, fl);
  }

  lemma {:induction false} SendDisconnectsSlots(s: ServerState, i: nat, n: nat)
    requires i < |s.slots|
    ensures forall j :: 0 <= j < |s.slots| && j != i ==> SendDisconnects(s, i, n).slots[j] == s.slots[j]
    decreases n
  {
    hide SendClient;
    if n > 0 {
      SendClientKeepsSlot(s, i, Disconnect);
      SendDisconnectsSlots(SendClient(s, i, Disconnect), i, n - 1);
    }
  }

  lemma {:induction false} DisconnectFromLog(s: ServerState, i: nat, fl: multiset<nat>)
    requires Log(s, fl) && i <= s.maxClients
    ensures Log(DisconnectFrom(s, i), fl)
    decreases s.maxClients - i
  {
    hide Log, DisconnectInternal;
    if i < s.maxClients {
      if Remote(s.slots[i]) {
        DisconnectLog(s, i, true, fl);
        DisconnectFromLog(DisconnectInternal(s, i, true), i + 1, fl);
      } else {
        DisconnectFromLog(s, i + 1, fl);
      }
    }
  }

  // ----- connecting -----

  lemma SlotLogSeat(t: Trace, i: nat, x: Slot, y: Slot, keys: Keys)
    requires SlotLog(t, i, x) && !x.connected && y.queue == x.queue && y.sequence == 0 && y.connected
    ensures SlotLog(Then(t, Accepted(i, y.address, y.clientId, keys)), i, y)
  {
    hide Contents, AlreadyReceived;
  }

  lemma SeatLog(s: ServerState, i: nat, x: Slot, fl: multiset<nat>)
    requires Log(s, fl) && i < |s.slots| && 0 <= x.encryptionIndex < s.mappings.num
    requires !s.slots[i].connected && x.connected
    requires x.queue == s.slots[i].queue && x.sequence == 0
    ensures Log(Seat(s, i, x), fl)
  {
    hide SlotLog, GlobalLog, Balanced, QueuedIds, M.SetExpireTime;
    var keys := KeysOf(s.mappings.entries[x.encryptionIndex]);
    SlotLogSeat(s.trace, i, s.slots[i], x, keys);
    SameQueues(s, Seat(s, i, x), i, fl);
    SlotStep(s, Seat(s, i, x), i, Accepted(i, x.address, x.clientId, keys), fl);
  }

  lemma ConnectLog(s: ServerState, i: nat, from: Address, id: uint64, e: int, timeout: int32, userData: UserData,
                   fl: multiset<nat>)
    requires Log(s, fl) && i < |s.slots|
    ensures Log(ConnectClient(s, i, from, id, e, timeout, userData), fl)
  {
    hide Log, SendClient, Seat;
    if !s.running || i >= s.maxClients || s.numConnected + 1 > s.maxClients || s.slots[i].connected
       || !(0 <= e < s.mappings.num) {
      FaultLog(s, fl);
    } else {
      var x := Taken(s, s.slots[i], from, id, e, timeout, userData);
      SeatLog(s, i, x, fl);
      SeatFrame(s, i, x);
      SendClientLog(Seat(s, i, x), i, KeepAlivePacket(Seat(s, i, x), i), fl);
    }
  }

  /** Log looks at the slots, the ledger, the trace and the global sequence only. */
  lemma FrameLog(s: ServerState, r: ServerState, fl: multiset<nat>)
    requires Log(s, fl)
    requires r.slots == s.slots && r.memory == s.memory && r.trace == s.trace && r.globalSequence == s.globalSequence
    ensures Log(r, fl)
  {
    hide SlotLog, GlobalLog, Balanced;
  }

  lemma FaultLog(s: ServerState, fl: multiset<nat>)
    requires Log(s, fl)
    ensures Log(s.(fault := true), fl)
  {
    FrameLog(s, s.(fault := true), fl);
  }

  /** An effect about no slot and not about the global sequence. */
  lemma NoteLog(s: ServerState, r: ServerState, e: Effect, fl: multiset<nat>)
    requires Log(s, fl) && (e.Processed? || e.Shown? || e.Granted? || e.Started?)
    requires r.slots == s.slots && r.memory == s.memory && r.trace == Then(s.trace, e)
    requires r.globalSequence == s.globalSequence
    ensures Log(r, fl)
  {
    hide SlotLog, Balanced;
    GlobalLogElsewhere(s.trace, e, s.globalSequence);
    QuietStep(s, r, e, fl);
  }

  lemma SendChallengeLog(a: Aead, s: ServerState, from: Address, t: PrivateToken, fl: multiset<nat>)
    requires Log(s, fl)
    ensures Log(SendChallenge(a, s, from, t), fl)
  {
    hide Log, SealChallenge, SendGlobal, Inc64;
    var sealed := SealChallenge(a, ChallengeToken(t.clientId, t.userData), s.challengeSequence, s.challengeKey);
    if |sealed| == CHALLENGE_TOKEN_BYTES {
      var granted := s.(challengeSequence := Inc64(s.challengeSequence),
                        trace := Then(s.trace, Granted(from, t.clientId, t.userData, s.challengeSequence,
                                                       t.serverToClientKey)));
      NoteLog(s, granted, granted.trace.last, fl);
      SendGlobalLog(granted, from, Challenge(s.challengeSequence, sealed), t.serverToClientKey, fl);
    }
  }

  lemma RequestLog(a: Aead, s: ServerState, from: Address, data: PrivateData, fl: multiset<nat>)
    requires Log(s, fl)
    ensures Log(ProcessRequest(a, s, from, data), fl)
  {
    hide Log, SendChallenge, SendGlobal, M.Add, H.FindOrAdd, ReadPrivate, RequestAcceptable, RequestMapping;
    var answer := ReadPrivate(data);
    if answer.Some? && RequestAcceptable(s, from, answer.value) {
      var t := answer.value;
      var noted := AskHistory(s, from, RequestMac(data)).1;
      NoteLog(s, noted, Shown(from, RequestMac(data), s.time), fl);
      SendGlobalLog(noted, from, Denied, t.serverToClientKey, fl);
      var mapped := noted.(mappings := M.Add(s.mappings, RequestMapping(s, from, t), s.time).1);
      FrameLog(noted, mapped, fl);
      SendChallengeLog(a, mapped, from, t, fl);
    }
  }

  lemma ResponseLog(a: Aead, s: ServerState, from: Address, sequence: uint64, data: ChallengeData, index: int,
                    fl: multiset<nat>)
    requires Log(s, fl)
    ensures Log(ProcessResponse(a, s, from, sequence, data, index), fl)
  {
    hide Log, OpenChallenge, ConnectClient, SendGlobal, FindByAddress, FindById, FindFree;
    FaultLog(s, fl);
    var answer := OpenChallenge(a, data, sequence, s.challengeKey);
    if answer.Some? && 0 <= index < s.mappings.num {
      var e := s.mappings.entries[index];
      SendGlobalLog(s, from, Denied, e.sendKey, fl);
      var i := FindFree(s.slots, 0, s.maxClients);
      if i < s.maxClients {
        ConnectLog(s, i, from, answer.value.clientId, index, e.timeout, answer.value.userData, fl);
      }
    }
  }

  // ----- datagrams -----

  lemma SlotLogTweak(t: Trace, i: nat, x: Slot, y: Slot)
    requires SlotLog(t, i, x) && y.queue == x.queue && y.window == x.window && y.sequence == x.sequence
    requires y.connected == x.connected && y.loopback == x.loopback && y.address == x.address
    requires y.clientId == x.clientId
    ensures SlotLog(t, i, y)
  {
  }

  lemma HearLog(s: ServerState, i: nat, fl: multiset<nat>)
    requires Log(s, fl) && i < |s.slots|
    ensures Log(Hear(s, i), fl)
  {
    hide SlotLog, GlobalLog, Balanced, QueuedIds;
    var r := Hear(s, i);
    SlotLogTweak(s.trace, i, s.slots[i], r.slots[i]);
    SameQueues(s, r, i, fl);
    SilentStep(s, r, fl);
  }

  lemma HandleLog(a: Aead, s: ServerState, from: Address, p: Packet, index: int, client: nat, fl: multiset<nat>)
    requires Log(s, fl) && client <= |s.slots| && (client < |s.slots| ==> s.slots[client].connected)
    ensures Log(Handle(a, s, from, p, index, client), fl)
  {
    hide Log, ProcessRequest, ProcessResponse, DisconnectInternal, Hear;
    match p
    case Request(_, _, _, _, data) => RequestLog(a, s, from, data, fl);
    case Response(n, data) => ResponseLog(a, s, from, n, data, index, fl);
    case KeepAlive(_, _) => if client < |s.slots| { HearLog(s, client, fl); }
    case Disconnect => if client < |s.slots| { DisconnectLog(s, client, false, fl); }
    case _ =>
  }

  /** The packet in flight is freed. */
  lemma FreeLog(s: ServerState, id: nat)
    requires Log(s, multiset{id})
    ensures Log(s.(memory := Free(s.memory, id)), multiset{})
  {
    hide SlotLog, GlobalLog, QueuedIds, Allocated;
    var q := QueuedIds(s.slots, |s.slots|);
    assert q + multiset{} + s.memory.held + (s.memory.freed + multiset{id})
        == q + multiset{id} + s.memory.held + s.memory.freed;
  }

  /** A packet is allocated and in flight. */
  lemma AllocLog(s: ServerState)
    requires Log(s, multiset{})
    ensures Log(s.(memory := Alloc(s.memory).1), multiset{s.memory.next})
  {
    hide SlotLog, GlobalLog, QueuedIds;
    var q := QueuedIds(s.slots, |s.slots|);
    assert q + multiset{s.memory.next} + s.memory.held + s.memory.freed
        == q + multiset{} + s.memory.held + s.memory.freed + multiset{s.memory.next};
  }

  lemma SlotQueueEnqueue(t: Trace, i: nat, x: Slot, m: Ledger, from: Address, item: Item)
    requires SlotQueue(t, i, x) && x.connected
    ensures var b := Enqueue(Inbox(x.queue, m, t), i, from, item);
            SlotQueue(b.trace, i, x.(queue := b.queue))
  {
    var b := Inbox(x.queue, m, t);
    EnqueueEffect(b, i, from, item);
    hide Enqueue, Contents;
    assert InOrder(b, i) && Hands(b, i);
    EnqueueOrder(b, i, from, item);
    EnqueueHands(b, i, from, item);
  }

  lemma SlotClientEnqueue(t: Trace, e: Effect, i: nat, x: Slot, q: Ring, from: Address, item: Item)
    requires SlotClient(t, i, x) && x.connected && x.address == from
    requires Remote(x) && item.sequence < TWO63 ==>
               item.sequence !in QueuedSince(t, i) && AlreadyReceived(x.window, item.sequence).0
    requires e == Queued(i, from, item) || e == Dropped(i, item)
    ensures SlotClient(Then(t, e), i, x.(queue := q))
  {
    AppendDistinct(QueuedSince(t, i), item.sequence);
    hide AlreadyReceived;
  }

  lemma SlotLogEnqueue(t: Trace, i: nat, x: Slot, m: Ledger, from: Address, item: Item)
    requires SlotLog(t, i, x) && x.connected && x.address == from
    requires Remote(x) && item.sequence < TWO63 ==>
               item.sequence !in QueuedSince(t, i) && AlreadyReceived(x.window, item.sequence).0
    ensures var b := Enqueue(Inbox(x.queue, m, t), i, from, item);
            SlotLog(b.trace, i, x.(queue := b.queue))
  {
    hide Enqueue, SlotQueue, SlotClient, AlreadyReceived;
    var b := Enqueue(Inbox(x.queue, m, t), i, from, item);
    SlotQueueEnqueue(t, i, x, m, from, item);
    EnqueueEffect(Inbox(x.queue, m, t), i, from, item);
    SlotClientEnqueue(t, b.trace.last, i, x, b.queue, from, item);
  }

  lemma AppendDistinct(s: seq<uint64>, q: uint64)
    ensures DistinctBelow63(s) && (q < TWO63 ==> q !in s) ==> DistinctBelow63(s + [q])
  {
  }

  /** The packet in flight is queued, or freed because the queue is full. */
  lemma EnqueueLog(s: ServerState, i: nat, from: Address, data: bytes, q: uint64, id: nat)
    requires Log(s, multiset{id}) && i < |s.slots| && s.slots[i].connected && s.slots[i].address == from
    requires Remote(s.slots[i]) && q < TWO63 ==>
               q !in QueuedSince(s.trace, i) && AlreadyReceived(s.slots[i].window, q).0
    ensures Log(WithBox(s, i, Enqueue(Box(s, i), i, from, Item(id, data, q))), multiset{})
  {
    hide SlotLog, GlobalLog, Enqueue, Conserves, AlreadyReceived;
    var item := Item(id, data, q);
    var b := Enqueue(Box(s, i), i, from, item);
    var r := WithBox(s, i, b);
    SlotLogEnqueue(s.trace, i, s.slots[i], s.memory, from, item);
    EnqueueEffect(Box(s, i), i, from, item);
    EnqueueLedger(Box(s, i), i, from, item);
    assert Ids(Contents(b.queue)) + b.memory.held + b.memory.freed + multiset{}
        == Ids(Contents(s.slots[i].queue)) + s.memory.held + s.memory.freed + multiset{id};
    BoxConserves(s, i, b, multiset{id}, multiset{});
    EffectOnSlot(s, r, i, b.trace.last, multiset{id}, multiset{});
  }

  /** SlotStep for a step that places a packet in flight. */
  lemma EffectOnSlot(s: ServerState, r: ServerState, i: nat, e: Effect, fl: multiset<nat>, after: multiset<nat>)
    requires Log(s, fl) && i < |s.slots| == |r.slots| && r.slots == s.slots[i := r.slots[i]]
    requires r.trace == Then(s.trace, e) && r.globalSequence == s.globalSequence
    requires e.Queued? || e.Dropped? || e.Handed? || e.Discarded? || e.Released?
    requires e.slot == i
    requires SlotLog(r.trace, i, r.slots[i])
    requires Conserves(r, after)
    ensures Log(r, after)
  {
    hide SlotLog, GlobalLog, Conserves;
    GlobalLogElsewhere(s.trace, e, s.globalSequence);
    forall j | 0 <= j < |r.slots|
      ensures SlotLog(r.trace, j, r.slots[j])
    {
      if j != i {
        SlotLogElsewhere(s.trace, e, j, s.slots[j]);
      }
    }
  }

  lemma DeliverLog(a: Aead, s: ServerState, from: Address, reading: Reading, index: int, client: nat)
    requires Log(s, multiset{}) && client <= |s.slots|
    requires client < |s.slots| ==> s.slots[client].connected && s.slots[client].address == from
    requires client < |s.slots| && reading.Some? && reading.value.0.Payload? && reading.value.1 < TWO63 ==>
               && reading.value.1 !in QueuedSince(s.trace, client)
               && AlreadyReceived(s.slots[client].window, reading.value.1).0
    ensures Log(Deliver(a, s, from, reading, index, client), multiset{})
  {
    hide Log, Handle, Enqueue, AlreadyReceived;
    if reading.Some? {
      var (p, q) := reading.value;
      var (id, memory) := Alloc(s.memory);
      AllocLog(s);
      var seen := s.(memory := memory, trace := Then(s.trace, Processed(from, p, q, KeyAt(s, index))));
      NoteLog(s.(memory := memory), seen, Processed(from, p, q, KeyAt(s, index)), multiset{id});
      if p.Payload? && client < |s.slots| {
        HearLog(seen, client, multiset{id});
        EnqueueLog(Hear(seen, client), client, from, p.data, q, id);
      } else {
        HandleLog(a, seen, from, p, index, client, multiset{id});
        FreeLog(Handle(a, seen, from, p, index, client), id);
      }
    }
  }

  /** A window that moved by one call of the filter. */
  lemma SlotLogWindow(t: Trace, i: nat, x: Slot, q: uint64)
    requires SlotLog(t, i, x)
    ensures SlotLog(t, i, x.(window := AlreadyReceived(x.window, q).1))
  {
    hide AlreadyReceived, Contents;
    if Remote(x) {
      forall s | s in QueuedSince(t, i) && s < TWO63
        ensures AlreadyReceived(AlreadyReceived(x.window, q).1, s).0
      {
        RefusalLasts(x.window, s, q);
      }
    }
  }

  lemma PutWindowLog(s: ServerState, client: nat, w: Option<Window>)
    requires Log(s, multiset{})
    requires client < |s.slots| ==>
               w == Some(s.slots[client].window) || exists q: uint64 :: w == Some(AlreadyReceived(s.slots[client].window, q).1)
    ensures Log(PutWindow(s, client, w), multiset{}) && PutWindow(s, client, w).trace == s.trace
  {
    hide SlotLog, GlobalLog, Conserves, AlreadyReceived;
    if client < |s.slots| {
      var x := s.slots[client];
      var r := PutWindow(s, client, w);
      if w != Some(x.window) {
        var q: uint64 :| w == Some(AlreadyReceived(x.window, q).1);
        SlotLogWindow(s.trace, client, x, q);
      }
      SameQueues(s, r, client, multiset{});
      SilentStep(s, r, multiset{});
    }
  }

  /** A payload that passed the window is new since the slot was given away. */
  lemma PassedIsNew(t: Trace, i: nat, x: Slot, q: uint64)
    requires SlotLog(t, i, x) && Remote(x) && q < TWO63 && !AlreadyReceived(x.window, q).0
    ensures q !in QueuedSince(t, i) && AlreadyReceived(AlreadyReceived(x.window, q).1, q).0
  {
    hide AlreadyReceived;
    PassingIsRemembered(x.window, q);
  }

  lemma ReceiveLog(a: Aead, s: ServerState, d: Datagram, now: uint64)
    requires Tables(s) && Log(s, multiset{})
    ensures Log(Receive(a, s, d, now), multiset{})
  {
    hide Tables, Log, Route, Deliver, AlreadyReceived, ReadPacket;
    if s.running && |d.data| > 1 {
      RouteTables(s, d.from);
      var (client, index, m) := Route(s, d.from);
      var routed := s.(mappings := m);
      FrameLog(s, routed, multiset{});
      if !(index == -1 && d.data[0] != 0) {
        var key := if index == -1 then None else Some(m.entries[index].receiveKey);
        var (reading, w) := Read(a, s, d, now, client, key);
        if client < |s.slots| {
          ReadMovesWindow(a, d.data, key, s.protocolId, now, Some(s.privateKey), ALLOWED, s.slots[client].window);
          if reading.Some? && reading.value.0.Payload? && reading.value.1 < TWO63 {
            LogOfSlot(s, client);
            PassedIsNew(s.trace, client, s.slots[client], reading.value.1);
          }
        }
        PutWindowLog(routed, client, w);
        DeliverLog(a, PutWindow(routed, client, w), d.from, reading, index, client);
      }
    }
  }

  lemma LogOfSlot(s: ServerState, i: nat)
    requires Log(s, multiset{}) && i < |s.slots|
    ensures SlotLog(s.trace, i, s.slots[i])
  {
  }

  lemma {:induction false} ReceiveAllLog(a: Aead, s: ServerState, ds: seq<Datagram>, now: uint64)
    requires Tables(s) && Log(s, multiset{})
    ensures Log(ReceiveAll(a, s, ds, now), multiset{})
    decreases |ds|
  {
    hide Tables, Log, Receive;
    if ds != [] {
      ReceiveTables(a, s, ds[0], now);
      ReceiveLog(a, s, ds[0], now);
      ReceiveAllLog(a, Receive(a, s, ds[0], now), ds[1..], now);
    }
  }

  lemma {:induction false} SendFromLog(s: ServerState, i: nat)
    requires Log(s, multiset{}) && i <= s.maxClients
    ensures Log(SendFrom(s, i), multiset{})
    decreases s.maxClients - i
  {
    hide Log, SendClient;
    if i < s.maxClients {
      if KeepAliveDue(s, s.slots[i]) {
        SendClientLog(s, i, KeepAlivePacket(s, i), multiset{});
        SendFromLog(SendClient(s, i, KeepAlivePacket(s, i)), i + 1);
      } else {
        SendFromLog(s, i + 1);
      }
    }
  }

  lemma UpdateLog(a: Aead, s: ServerState, time: real, ds: seq<Datagram>, now: uint64)
    requires Tables(s) && RecentlySent(s) && OnTime(s, time) && Log(s, multiset{})
    ensures Log(Update(a, s, time, ds, now), multiset{})
  {
    hide Tables, RecentlySent, OnTime, Log, ReceiveAll, SendFrom, DisconnectInternal;
    TickTables(s, time);
    FrameLog(s, s.(time := time), multiset{});
    ReceiveAllLog(a, s.(time := time), ds, now);
    var received := ReceiveAll(a, s.(time := time), ds, now);
    if received.running {
      SendFromLog(received, 0);
    }
    var sent := SendPackets(received);
    if sent.running {
      var i := FindTimedOut(sent, 0, sent.maxClients);
      if i < sent.maxClients {
        DisconnectLog(sent, i, false, multiset{});
      }
    }
  }

  // ----- starting, stopping and the application's calls -----

  lemma StopLog(s: ServerState)
    requires Log(s, multiset{})
    ensures Log(Stop(s), multiset{})
  {
    if s.running {
      DisconnectFromLog(s, 0, multiset{});
      var d := DisconnectAll(s);
      StoppedGlobal(d.trace, d.globalSequence);
      hide SlotLog, Conserves, DisconnectFrom, GlobalLog;
      QueuesOnly(d, Stop(s));
      QuietStep(d, Stop(s), Stopped, multiset{});
    }
  }

  lemma StoppedGlobal(t: Trace, q: uint64)
    ensures GlobalLog(Then(t, Stopped), 0)
  {
  }

  lemma QueuesOnly(s: ServerState, r: ServerState)
    requires Conserves(s, multiset{}) && r.slots == s.slots && r.memory == s.memory
    ensures Conserves(r, multiset{})
  {
  }

  lemma SlotLogEmptied(t: Trace, i: nat, x: Slot, y: Slot)
    requires SlotLog(t, i, x) && Contents(x.queue) == [] && Contents(y.queue) == [] && !x.connected && !y.connected
    requires |y.queue.slots| == |x.queue.slots|
    ensures SlotLog(t, i, y)
  {
  }

  lemma StartLog(s: ServerState, max: nat, key: Key)
    requires Tables(s) && (s.running ==> NoLoopback(s)) && Log(s, multiset{}) && max <= |s.slots|
    ensures Log(Start(s, max, key), multiset{})
  {
    hide Tables, SlotLog, GlobalLog, Conserves, Stop;
    StopClean(s);
    StopLog(s);
    var idle := Stop(s);
    var slots := InitQueues(idle.slots, max);
    forall i | 0 <= i < |slots|
      ensures Contents(slots[i].queue) == Contents(idle.slots[i].queue)
      ensures SlotLog(idle.trace, i, slots[i])
    {
      assert Clean(idle.slots[i]);
      SlotLogEmptied(idle.trace, i, idle.slots[i], slots[i]);
    }
    var emptied := idle.(slots := slots);
    QueueOnlyConserves(idle, emptied, multiset{});
    SilentStep(idle, emptied, multiset{});
    var begun := emptied.(running := true, maxClients := max, numConnected := 0, challengeSequence := 0,
                          challengeKey := key);
    FrameLog(emptied, begun, multiset{});
    NoteLog(begun, Start(s, max, key), Started, multiset{});
  }

  lemma SendPayloadLog(s: ServerState, i: nat, data: bytes)
    requires Log(s, multiset{}) && (s.running ==> i < |s.slots|)
    ensures Log(SendPayload(s, i, data), multiset{})
  {
    var x := if s.running then s.slots[i] else FreeSlot();
    if s.running && Remote(x) {
      hide Log, SendClient;
      var first := if x.confirmed then s else SendClient(s, i, KeepAlivePacket(s, i));
      if !x.confirmed {
        SendClientLog(s, i, KeepAlivePacket(s, i), multiset{});
        SendClientKeepsSlot(s, i, KeepAlivePacket(s, i));
      }
      SendClientLog(first, i, Payload(data), multiset{});
    } else if s.running && x.connected {
      hide SlotLog, GlobalLog, Conserves, Inc64;
      SlotLogSend(s.trace, i, x, NoAddress, Payload(data), ZERO_KEY, s.protocolId, s.time);
      SameQueues(s, SendPayload(s, i, data), i, multiset{});
      SlotStep(s, SendPayload(s, i, data), i, Sent(i, NoAddress, Payload(data), x.sequence, ZERO_KEY, s.protocolId), multiset{});
    }
  }

  lemma SlotLogDequeue(t: Trace, i: nat, x: Slot, m: Ledger)
    requires SlotLog(t, i, x) && x.connected
    ensures var b := Dequeue(Inbox(x.queue, m, t), i).1; SlotLog(b.trace, i, x.(queue := b.queue))
  {
    var b := Inbox(x.queue, m, t);
    DequeueEffect(b, i);
    hide Dequeue, AlreadyReceived, Contents;
    assert InOrder(b, i) && Hands(b, i);
    DequeueOrder(b, i);
    DequeueHands(b, i);
  }

  lemma ReceivePayloadLog(s: ServerState, i: nat)
    requires Log(s, multiset{}) && (s.running ==> i < |s.slots|)
    ensures Log(ReceivePayload(s, i).1, multiset{})
  {
    if s.running && s.slots[i].connected {
      SlotLogDequeue(s.trace, i, s.slots[i], s.memory);
      DequeueLedger(Box(s, i), i);
      var b := Dequeue(Box(s, i), i).1;
      BoxConserves(s, i, b, multiset{}, multiset{});
      hide SlotLog, GlobalLog, Conserves;
      if b.trace == s.trace {
        SilentStep(s, WithBox(s, i, b), multiset{});
      } else {
        EffectOnSlot(s, WithBox(s, i, b), i, b.trace.last, multiset{}, multiset{});
      }
    }
  }

  lemma GiveBackLog(s: ServerState, id: nat)
    requires Log(s, multiset{}) && id in s.memory.held
    ensures Log(s.(memory := GiveBack(s.memory, id)), multiset{})
  {
    hide SlotLog, GlobalLog, QueuedIds, Balanced;
    GiveBackBalanced(s.memory, QueuedIds(s.slots, |s.slots|) + multiset{}, id);
  }

  lemma ConnectLoopbackLog(s: ServerState, i: nat, id: uint64, userData: UserData)
    requires Log(s, multiset{}) && i < |s.slots| && !s.slots[i].connected
    ensures Log(ConnectLoopback(s, i, id, userData), multiset{})
  {
    hide SlotLog, GlobalLog, Conserves;
    var r := ConnectLoopback(s, i, id, userData);
    SlotLogSeat(s.trace, i, s.slots[i], r.slots[i], Keys(ZERO_KEY, ZERO_KEY));
    SameQueues(s, r, i, multiset{});
    SlotStep(s, r, i, Accepted(i, NoAddress, id, Keys(ZERO_KEY, ZERO_KEY)), multiset{});
  }

  lemma LoopbackPacketLog(s: ServerState, i: nat, data: bytes, sequence: uint64)
    requires Log(s, multiset{}) && i < |s.slots|
    requires s.slots[i].connected && s.slots[i].loopback && s.slots[i].address == NoAddress
    ensures Log(ProcessLoopback(s, i, data, sequence), multiset{})
  {
    hide SlotLog, GlobalLog, Conserves, Enqueue;
    AllocLog(s);
    var m := s.(memory := Alloc(s.memory).1);
    var heard := PutSlot(m, i, m.slots[i].(lastReceive := s.time));
    SlotLogTweak(m.trace, i, m.slots[i], heard.slots[i]);
    SameQueues(m, heard, i, multiset{s.memory.next});
    SilentStep(m, heard, multiset{s.memory.next});
    EnqueueLog(heard, i, NoAddress, data, sequence, s.memory.next);
  }

  lemma StepLog(a: Aead, s: ServerState, e: Event)
    requires Tables(s) && RecentlySent(s) && Log(s, multiset{}) && Enabled(s, e) && Orderly(s, e)
    ensures Log(Step(a, s, e), multiset{})
  {
    hide Tables, RecentlySent, OnTime, Log, Start, Stop, Update, SendPayload, ReceivePayload, DisconnectInternal,
         DisconnectFrom, ConnectLoopback, ProcessLoopback, Drain;
    match e
    case StartEvent(max, key) => StartLog(s, max, key);
    case StopEvent => StopLog(s);
    case UpdateEvent(time, datagrams, now) => UpdateLog(a, s, time, datagrams, now);
    case SendEvent(i, data) => SendPayloadLog(s, i, data);
    case ReceiveEvent(i) => ReceivePayloadLog(s, i);
    case FreeEvent(id) => GiveBackLog(s, id);
    case DisconnectEvent(i) => if s.running && Remote(s.slots[i]) { DisconnectLog(s, i, true, multiset{}); }
    case DisconnectAllEvent => DisconnectFromLog(s, 0, multiset{});
    case ConnectLoopbackEvent(i, id, userData) => ConnectLoopbackLog(s, i, id, userData);
    case DisconnectLoopbackEvent(i) => VacateLog(s, DisconnectLoopback(s, i), i, multiset{});
    case LoopbackPacketEvent(i, data, sequence) =>
      LoopbackHasNoAddress(s, i);
      LoopbackPacketLog(s, i, data, sequence);
  }

  lemma LoopbackHasNoAddress(s: ServerState, i: nat)
    requires Tables(s) && i < |s.slots| && s.slots[i].connected && s.slots[i].loopback
    ensures s.slots[i].address == NoAddress
  {
    assert SlotOk(s.slots[i]);
  }

  lemma {:induction false} RunLog(a: Aead, s: ServerState, es: seq<Event>)
    requires Tables(s) && RecentlySent(s) && Log(s, multiset{}) && OrderlyRun(a, s, es)
    ensures Log(Run(a, s, es), multiset{})
    decreases |es|
  {
    hide Tables, RecentlySent, Log, Step, Orderly, Enabled;
    if es != [] {
      StepTables(a, s, es[0]);
      StepLog(a, s, es[0]);
      RunLog(a, Step(a, s, es[0]), es[1..]);
    }
  }
}
