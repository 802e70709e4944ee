/** The main results about the server, over every orderly run from its creation: updates come on
    time, and the server stops or restarts only while no loopback client is connected. */
module ServerTheorems {
  import opened Types
  import opened Crypto
  import opened Tokens
  import opened Replay
  import opened Queue
  import opened Traces
  import opened Memory
  import opened Inbox
  import opened Server
  import opened ServerTables
  import opened ServerLog
  import opened ServerProvenance
  import M = Mappings
  import N = ServerNonces

  /** A server as it is created. */
  ghost predicate New(s: ServerState) {
    exists address, protocolId, key, f, g, time :: s == Create(address, protocolId, key, f, g, time)
  }

  lemma NewServer(s: ServerState)
    requires New(s)
    ensures Tables(s) && RecentlySent(s) && Log(s, multiset{}) && (forall honest :: Prov(Given(honest, s.time), s))
    ensures !EverStopped(s.trace) && N.Nonces(s)
  {
    var address, protocolId, key, f, g, time :| s == Create(address, protocolId, key, f, g, time);
    N.NewNonces(s);
    CreateTables(address, protocolId, key, f, g, time);
    CreateLog(address, protocolId, key, f, g, time);
    CreateProv(Given(true, time), address, protocolId, key, f, g, time);
    CreateProv(Given(false, time), address, protocolId, key, f, g, time);
  }

  lemma NewTrace(s: ServerState)
    requires New(s)
    ensures s.trace == Nothing
  {
  }

  /** No assert on an encryption index ever fails and no mapping is ever out of date: each connected
      remote slot's index names an unexpired entry for that slot's own address, and no two slots
      share an index. */
  lemma MappingsNeverFail(a: Aead, s: ServerState, es: seq<Event>, i: nat, j: nat)
    requires New(s) && OrderlyRun(a, s, es) && i < |s.slots| && j < |s.slots|
    ensures var r := Run(a, s, es);
            && !r.fault && |r.slots| == |s.slots|
            && (Remote(r.slots[i]) ==>
                  var x := r.slots[i];
                  && 0 <= x.encryptionIndex < r.mappings.num
                  && r.mappings.entries[x.encryptionIndex].address == x.address != NoAddress
                  && !M.Expired(r.mappings.entries[x.encryptionIndex], r.time))
            && (i != j && Remote(r.slots[i]) && Remote(r.slots[j]) ==>
                  r.slots[i].encryptionIndex != r.slots[j].encryptionIndex)
  {
    NewServer(s);
    RunTables(a, s, es);
    RunKeepsSlotCount(a, s, es);
    hide M.Expired, SlotOk, Run, OrderlyRun;
    var r := Run(a, s, es);
    assert Remote(r.slots[i]) ==> Keyed(r.slots[i], r.mappings, r.time);
    if i != j && Remote(r.slots[i]) && Remote(r.slots[j]) {
      IndicesDistinct(r, if i < j then i else j, if i < j then j else i);
    }
  }

  lemma {:induction false} RunKeepsSlotCount(a: Aead, s: ServerState, es: seq<Event>)
    requires Tables(s) && RecentlySent(s) && OrderlyRun(a, s, es)
    ensures |Run(a, s, es).slots| == |s.slots|
    decreases |es|
  {
    hide Tables, RecentlySent, Step, Orderly, Enabled;
    if es != [] {
      StepTables(a, s, es[0]);
      StepKeepsSlotCount(a, s, es[0]);
      RunKeepsSlotCount(a, Step(a, s, es[0]), es[1..]);
    }
  }

  lemma StepKeepsSlotCount(a: Aead, s: ServerState, e: Event)
    requires Tables(s) && RecentlySent(s) && Enabled(s, e) && Orderly(s, e)
    ensures |Step(a, s, e).slots| == |s.slots|
  {
    hide Tables, RecentlySent, Stop, ReceiveAll, SendFrom, DisconnectInternal, DisconnectFrom, SendClient,
         Dequeue, Enqueue, Drain, Orderly;
    if e.UpdateEvent? {
      TickOrderly(s, e);
      ReceiveAllTables(a, s.(time := e.time), e.datagrams, e.now);
    }
  }

  lemma TickOrderly(s: ServerState, e: Event)
    requires e.UpdateEvent? && Tables(s) && RecentlySent(s) && Orderly(s, e)
    ensures Tables(s.(time := e.time))
  {
    TickTables(s, e.time);
  }

  /** The slot table: the count is right, slots beyond maxClients are free, every free slot is
      clean, no two remote clients share an id or an address, and a server that is not full has a
      free slot. */
  lemma SlotsInOrder(a: Aead, s: ServerState, es: seq<Event>)
    requires New(s) && OrderlyRun(a, s, es)
    ensures var r := Run(a, s, es);
            && |r.slots| == |s.slots|
            && SlotTable(r.slots, r.maxClients, r.numConnected)
            && (r.numConnected < r.maxClients <==> FindFree(r.slots, 0, r.maxClients) < r.maxClients)
  {
    NewServer(s);
    RunTables(a, s, es);
    RunKeepsSlotCount(a, s, es);
    FreeSlotExists(Run(a, s, es));
  }

  /** Exactly once and in order: while a client holds the slot, what was queued for it is what the
      application took followed by what is in the queue, so what it took is a prefix of what was
      queued; a payload is dropped only when the queue is full; all of it came from the client's
      address; and for a client on the network no sequence below 2^63 is queued twice, so none is
      handed to the application twice.  Over the whole run, what was queued is what was taken or
      discarded, in order, followed by what is in the queue. */
  lemma DeliversInOrderOnce(a: Aead, s: ServerState, es: seq<Event>, i: nat)
    requires New(s) && OrderlyRun(a, s, es) && i < |Run(a, s, es).slots|
    ensures var r := Run(a, s, es);
            var queued := QueuedItemsSince(r.trace, i);
            && (r.slots[i].connected ==>
                  && queued == HandedSince(r.trace, i) + Contents(r.slots[i].queue)
                  && HandedSince(r.trace, i) <= queued
                  && Seated(r.trace, i) == Some(Tenant(r.slots[i].address, r.slots[i].clientId)))
            && (Remote(r.slots[i]) ==> OnceFrom(queued, 0) && OnceFrom(HandedSince(r.trace, i), 0))
            && DropsWhenFull(r.trace, i) && QueuedFromHolder(r.trace, i)
            && QueuedItems(r.trace, i) == LeftItems(r.trace, i) + Contents(r.slots[i].queue)
  {
    NewServer(s);
    RunLog(a, s, es);
    var r := Run(a, s, es);
    LogOfSlot(r, i);
    QueuedSinceAttempt(r.trace, i);
    hide Run, OrderlyRun, QueuedItemsSince, HandedSince, AttemptItems, QueuedSince, SentSince, Contents, AlreadyReceived;
    if Remote(r.slots[i]) {
      HandedOnce(r.trace, i, Contents(r.slots[i].queue));
    }
  }

  /** Each allocated packet is in one queue, with the application or freed, once. */
  lemma PacketsConserved(a: Aead, s: ServerState, es: seq<Event>, id: nat)
    requires New(s) && OrderlyRun(a, s, es)
    ensures var r := Run(a, s, es);
            QueuedIds(r.slots, |r.slots|)[id] + r.memory.held[id] + r.memory.freed[id]
            == if id < r.memory.next then 1 else 0
  {
    NewServer(s);
    RunLog(a, s, es);
    hide QueuedIds, Run;
    var r := Run(a, s, es);
    assert QueuedIds(r.slots, |r.slots|) + multiset{} == QueuedIds(r.slots, |r.slots|);
    EachInOnePlace(r.memory, QueuedIds(r.slots, |r.slots|), id);
  }

  /** A slot's sends since it was given away are numbered 0, 1, 2, ... */
  lemma SlotSequencesCountUp(a: Aead, s: ServerState, es: seq<Event>, i: nat, k: nat)
    requires New(s) && OrderlyRun(a, s, es) && i < |Run(a, s, es).slots|
    requires k < |SentSince(Run(a, s, es).trace, i)| <= TWO63
    ensures SentSince(Run(a, s, es).trace, i)[k] == k < TWO63
  {
    NewServer(s);
    RunLog(a, s, es);
    LogOfSlot(Run(a, s, es), i);
    hide SlotLog, Conserves, GlobalLog, Tables, SentSince, Prov;
    SlotNumber(Run(a, s, es).trace, i, Run(a, s, es).slots[i], k);
  }

  lemma SlotNumber(t: Trace, i: nat, x: Slot, k: nat)
    requires SlotLog(t, i, x) && k < |SentSince(t, i)| <= TWO63
    ensures SentSince(t, i)[k] == k
  {
    hide SentSince, SlotQueue, AlreadyReceived;
  }

  /** The global sends are numbered from 2^63 on until the server is first stopped, so they never
      meet those of a slot; after a stop they start again at 0. */
  lemma GlobalSequencesCountUp(a: Aead, s: ServerState, es: seq<Event>, g: nat)
    requires New(s) && OrderlyRun(a, s, es) && g < |SentSince(Run(a, s, es).trace, GLOBAL)| <= TWO63
    ensures var t := Run(a, s, es).trace;
            && SentSince(t, GLOBAL)[g] == (if EverStopped(t) then 0 else TWO63) + g
            && (!EverStopped(t) ==> SentSince(t, GLOBAL)[g] >= TWO63)
  {
    NewServer(s);
    RunLog(a, s, es);
    hide SlotLog, Conserves, GlobalLog, Tables, SentSince, EverStopped;
    GlobalNumber(Run(a, s, es).trace, Run(a, s, es).globalSequence, g);
  }

  lemma GlobalNumber(t: Trace, q: uint64, g: nat)
    requires GlobalLog(t, q) && g < |SentSince(t, GLOBAL)| <= TWO63
    ensures SentSince(t, GLOBAL)[g] == (if EverStopped(t) then 0 else TWO63) + g
  {
    hide SentSince, EverStopped;
  }

  /** Handshake provenance: a connected remote client's id and user data are those of a challenge
      token sealed for a granted request since the server last started, and its address had a request
      granted too. */
  lemma ClientsWereGranted(a: Aead, s: ServerState, es: seq<Event>, i: nat)
    requires Lawful(a) && New(s) && OrderlyRun(a, s, es) && GenuineRun(a, s, es) && i < |Run(a, s, es).slots|
    ensures var r := Run(a, s, es);
            Remote(r.slots[i]) ==>
              && GrantedToken(r.trace, r.slots[i].clientId, r.slots[i].userData)
              && GrantedTo(r.trace, r.slots[i].address)
  {
    NewServer(s);
    RunProv(Given(true, s.time), a, s, es);
  }

  /** What a grant rests on, forged tokens or not: every grant in the run answers a request whose
      token lists this server, which the token history let through, and whose address and client id
      held no slot at that moment; and every payload queued from the network is the one received
      just before. */
  lemma GrantsWereChecked(a: Aead, s: ServerState, es: seq<Event>)
    requires Lawful(a) && New(s) && OrderlyRun(a, s, es)
    ensures Answers(Run(a, s, es).trace, ScopeOf(Run(a, s, es)))
  {
    NewServer(s);
    RunProv(Given(false, s.time), a, s, es);
  }

  /** The server's token history is at any time what the calls made since the last start make of an
      empty table; for a server created after time -1000 the table is in order. */
  lemma HistoryIsItsCalls(a: Aead, s: ServerState, es: seq<Event>)
    requires Lawful(a) && New(s) && OrderlyRun(a, s, es) && s.time > -1000.0
    ensures var r := Run(a, s, es);
            && r.history == H.After(|r.history|, CallsSince(r.trace))
            && H.InOrder(CallsSince(r.trace)) && H.Inv(r.history, r.time)
  {
    NewServer(s);
    RunProv(Given(false, s.time), a, s, es);
    var r := Run(a, s, es);
    hide Run, OrderlyRun, Answers, CallsSince;
    assert Remembers(r, s.time);
    H.AfterInv(|r.history|, CallsSince(r.trace), r.time);
  }

  /** Two grants since the start for one token go to one address, while fewer than size - 1 other
      tokens were stamped since the token's first use. */
  lemma OneTokenOneAddress(a: Aead, s: ServerState, es: seq<Event>, k: nat, i: nat, j: nat)
    requires Lawful(a) && New(s) && OrderlyRun(a, s, es) && s.time > -1000.0
    requires k <= i < j && GrantedCall(Run(a, s, es).trace, i) && GrantedCall(Run(a, s, es).trace, j)
    requires var r := Run(a, s, es);
             var calls := CallsSince(r.trace);
             j < |calls| ==>
               && calls[k].mac == calls[i].mac == calls[j].mac != ZERO_MAC
               && H.FirstUse(calls, k) && H.Recent(|r.history|, calls, k, j)
    ensures var calls := CallsSince(Run(a, s, es).trace);
            j < |calls| && calls[i].address == calls[j].address
  {
    HistoryIsItsCalls(a, s, es);
    GrantsWereChecked(a, s, es);
    var r := Run(a, s, es);
    hide Run, OrderlyRun, H.LetThrough, H.Recent, H.FirstUse, H.InOrder, H.Inv, H.After;
    GrantedWasLetThrough(r.trace, i, ScopeOf(r));
    GrantedWasLetThrough(r.trace, j, ScopeOf(r));
    H.OneTokenOneGrant(|r.history|, CallsSince(r.trace), k, i, j);
  }

  /** Call number k to the token history since the last start was answered with a grant. */
  ghost predicate GrantedCall(t: Trace, k: nat) {
    t.Then? && !t.last.Started? && !t.last.Stopped?
    && ((t.last.Granted? && k + 1 == |CallsSince(t)|) || GrantedCall(t.past, k))
  }

  lemma {:induction false} GrantedWasLetThrough(t: Trace, k: nat, scope: Scope)
    requires Answers(t, scope) && scope.size > 0 && GrantedCall(t, k)
    ensures k < |CallsSince(t)| && H.LetThrough(scope.size, CallsSince(t), k)
  {
    hide H.After, H.FindOrAdd, ReadPrivate, Vacant, RequestMac;
    if t.last.Granted? && k + 1 == |CallsSince(t)| {
      assert Requested(t.past, t.last, scope);
      assert CallsSince(t)[..k] == CallsSince(t.past.past);
    } else {
      GrantedWasLetThrough(t.past, k, scope);
      assert CallsSince(t)[..k] == CallsSince(t.past)[..k];
    }
  }

  /** How late an update may come: the tables survive the clock moving on exactly while each remote
      client with a timeout was sent something within that timeout. */
  lemma ClockMayAdvance(s: ServerState, time: real)
    requires Tables(s) && s.time <= time
    ensures Tables(s.(time := time))
            <==> forall i :: 0 <= i < |s.slots| && Remote(s.slots[i]) && s.slots[i].timeout > 0 ==>
                   time <= s.mappings.entries[s.slots[i].encryptionIndex].lastAccess + s.slots[i].timeout as real
  {
    M.TickInv(s.mappings, s.time, time);
    hide M.Inv, SlotOk;
    assert forall i :: 0 <= i < |s.slots| && Remote(s.slots[i]) ==> Keyed(s.slots[i], s.mappings, s.time);
  }

  /** In an orderly run without a stop, in which fewer than 2^63 packets are sent, no two packets the
      server seals carry the same key and sequence number, neither two of one client, nor of two
      clients, nor one of a client and one to an address without a slot, if and only if no two
      clients were taken in under one key.  How often a request was granted plays no part. */
  lemma NoncesOnce(a: Aead, s: ServerState, es: seq<Event>)
    requires Lawful(a) && New(s) && OrderlyRun(a, s, es)
    requires var t := Run(a, s, es).trace; !EverStopped(t) && N.Sends(t) < TWO63
    ensures var t := Run(a, s, es).trace; AllDistinct(Sealings(t)) <==> KeysDiffer(SeatKeys(t))
  {
    NewServer(s);
    N.RunNonces(a, s, es);
    hide Run, OrderlyRun, Sealings, SeatKeys, AllDistinct, KeysDiffer;
  }
}
