/** What an endpoint does to the world outside it, in order, and what can be read off it. */
module Traces {
  import opened Types
  import opened Packets
  import opened Queue

  /** The keys of a client's mapping. */
  datatype Keys = Keys(send: Key, receive: Key)

  /** One observable step.  A client uses slot 0; a server uses the slot of the client, and
      GLOBAL for packets to addresses that hold no slot. */
  datatype Effect =
    | Changed(before: int, after: int)                    // client state change callback
    | Started                                             // server started with a fresh challenge key
    | Stopped
    | Shown(from: Address, mac: Mac, time: real)          // the token history is asked about a token
    | Granted(to: Address, clientId: uint64, userData: UserData, challengeSequence: uint64, key: Key)
    | Accepted(slot: int, address: Address, clientId: uint64, keys: Keys)   // server gives a slot to a client
    | Released(slot: int)                                 // the client has lost its slot
    | Processed(from: Address, packet: Packet, sequence: uint64, readKey: Option<Key>)   // it passed the reader
    | Sent(slot: int, to: Address, packet: Packet, sequence: uint64, key: Key, protocolId: uint64)
    | Queued(slot: int, from: Address, item: Item)        // a payload enters the receive queue
    | Dropped(slot: int, item: Item)                      // a payload met a full queue
    | Handed(slot: int, item: Item)                       // the application takes a payload
    | Discarded(slot: int, item: Item)                    // a disconnect frees a payload nobody took

  const GLOBAL := -1

  datatype Trace = Nothing | Then(past: Trace, last: Effect)

  // ----- the receive queue -----

  function QueuedItems(t: Trace, slot: int): seq<Item> {
    match t
    case Nothing => []
    case Then(past, e) =>
      if e.Queued? && e.slot == slot then QueuedItems(past, slot) + [e.item] else QueuedItems(past, slot)
  }

  /** A payload leaves the queue of the slot. */
  predicate Leaves(e: Effect, slot: int) {
    (e.Handed? || e.Discarded?) && e.slot == slot
  }

  function LeftItems(t: Trace, slot: int): seq<Item> {
    match t
    case Nothing => []
    case Then(past, e) =>
      if Leaves(e, slot) then LeftItems(past, slot) + [e.item] else LeftItems(past, slot)
  }

  /** A connection of the slot begins; a client's connection lasts from one idle state to the next,
      across all its failovers. */
  predicate Begins(e: Effect, slot: int) {
    (e.Accepted? && e.slot == slot) || (e.Changed? && e.after <= 0)
  }

  /** What was queued within the connection, whatever became of it. */
  function QueuedItemsSince(t: Trace, slot: int): seq<Item> {
    match t
    case Nothing => []
    case Then(past, e) =>
      if Begins(e, slot) then []
      else if e.Queued? && e.slot == slot then QueuedItemsSince(past, slot) + [e.item]
      else QueuedItemsSince(past, slot)
  }

  /** What the application took within the connection. */
  function HandedSince(t: Trace, slot: int): seq<Item> {
    match t
    case Nothing => []
    case Then(past, e) =>
      if Begins(e, slot) then []
      else if e.Handed? && e.slot == slot then HandedSince(past, slot) + [e.item]
      else HandedSince(past, slot)
  }

  /** A payload is dropped only while as many as the queue holds wait for the application. */
  predicate DropsWhenFull(t: Trace, slot: int) {
    t.Then? ==>
      && DropsWhenFull(t.past, slot)
      && (t.last.Dropped? && t.last.slot == slot ==>
            |QueuedItemsSince(t.past, slot)| - |HandedSince(t.past, slot)| == PACKET_QUEUE_SIZE)
  }

  datatype Tenant = Tenant(address: Address, clientId: uint64)

  /** Who holds a server slot. */
  function Seated(t: Trace, slot: int): Option<Tenant> {
    match t
    case Nothing => None
    case Then(past, e) =>
      if e.Accepted? && e.slot == slot then Some(Tenant(e.address, e.clientId))
      else if e.Released? && e.slot == slot then None
      else Seated(past, slot)
  }

  /** Every item queued for the slot came from the address that held it at that time. */
  predicate QueuedFromHolder(t: Trace, slot: int) {
    t.Then? ==>
      && QueuedFromHolder(t.past, slot)
      && (t.last.Queued? && t.last.slot == slot ==>
            Seated(t.past, slot).Some? && t.last.from == Seated(t.past, slot).value.address)
  }

  /** A connection attempt starts: the replay window is fresh again. */
  predicate Restarts(e: Effect, slot: int) {
    Begins(e, slot) || (e.Changed? && e.after == 1)
  }

  /** What was queued since the attempt started. */
  function AttemptItems(t: Trace, slot: int): seq<Item> {
    match t
    case Nothing => []
    case Then(past, e) =>
      if Restarts(e, slot) then []
      else if e.Queued? && e.slot == slot then AttemptItems(past, slot) + [e.item]
      else AttemptItems(past, slot)
  }

  /** The last attempt's items are the last of the connection's. */
  lemma {:induction false} AttemptIsSuffix(t: Trace, slot: int)
    ensures |AttemptItems(t, slot)| <= |QueuedItemsSince(t, slot)|
    ensures QueuedItemsSince(t, slot)[|QueuedItemsSince(t, slot)| - |AttemptItems(t, slot)|..] == AttemptItems(t, slot)
  {
    if t.Then? {
      AttemptIsSuffix(t.past, slot);
    }
  }

  /** No sequence number below 2^63 occurs twice from position k on. */
  ghost predicate OnceFrom(items: seq<Item>, k: nat) {
    forall i, j :: k <= i < j < |items| && items[i].sequence < TWO63 ==> items[i].sequence != items[j].sequence
  }

  /** The sequence numbers of what was queued since the attempt started. */
  function QueuedSince(t: Trace, slot: int): seq<uint64> {
    match t
    case Nothing => []
    case Then(past, e) =>
      if Restarts(e, slot) then []
      else if e.Queued? && e.slot == slot then QueuedSince(past, slot) + [e.item.sequence]
      else QueuedSince(past, slot)
  }

  lemma {:induction false} QueuedSinceAttempt(t: Trace, slot: int)
    ensures |QueuedSince(t, slot)| == |AttemptItems(t, slot)|
    ensures forall k :: 0 <= k < |AttemptItems(t, slot)| ==> QueuedSince(t, slot)[k] == AttemptItems(t, slot)[k].sequence
  {
    if t.Then? {
      QueuedSinceAttempt(t.past, slot);
    }
  }

  ghost predicate DistinctBelow63(s: seq<uint64>) {
    forall i, j :: 0 <= i < j < |s| && s[i] < TWO63 ==> s[i] != s[j]
  }

  /** What the application takes is a prefix of what was queued, so what holds of the last attempt's
      items holds of those the application took. */
  lemma HandedOnce(t: Trace, slot: int, waiting: seq<Item>)
    requires QueuedItemsSince(t, slot) == HandedSince(t, slot) + waiting && DistinctBelow63(QueuedSince(t, slot))
    ensures HandedSince(t, slot) <= QueuedItemsSince(t, slot)
    ensures |AttemptItems(t, slot)| <= |QueuedItemsSince(t, slot)|
    ensures OnceFrom(HandedSince(t, slot), |QueuedItemsSince(t, slot)| - |AttemptItems(t, slot)|)
  {
    AttemptIsSuffix(t, slot);
    QueuedSinceAttempt(t, slot);
    var all := QueuedItemsSince(t, slot);
    var skip := |all| - |AttemptItems(t, slot)|;
    assert forall k :: skip <= k < |all| ==> all[k] == AttemptItems(t, slot)[k - skip];
    hide QueuedItemsSince, HandedSince, AttemptItems, QueuedSince;
  }

  // ----- sequence numbers -----

  /** The sequence counter of a slot, or of a client, or the global one, starts over. */
  predicate Resets(e: Effect, slot: int) {
    Begins(e, slot) || (e.Stopped? && slot == GLOBAL)
  }

  /** The sequence numbers sent since the counter started over. */
  function SentSince(t: Trace, slot: int): seq<uint64> {
    match t
    case Nothing => []
    case Then(past, e) =>
      if Resets(e, slot) then []
      else if e.Sent? && e.slot == slot then SentSince(past, slot) + [e.sequence]
      else SentSince(past, slot)
  }

  /** No connection of the slot sends more packets than there are sequence numbers. */
  predicate NeverWraps(t: Trace, slot: int) {
    t.Then? ==> NeverWraps(t.past, slot) && |SentSince(t, slot)| <= TWO64
  }

  /** The k-th element is first + k as a uint64: no number is skipped, and none is used twice
      before the counter wraps. */
  ghost predicate CountsFrom(first: nat, s: seq<uint64>) {
    forall k :: 0 <= k < |s| ==> s[k] == (first + k) % TWO64
  }

  lemma NextCount(first: nat, s: seq<uint64>, q: uint64)
    requires CountsFrom(first, s) && q == (first + |s|) % TWO64
    ensures CountsFrom(first, s + [q]) && Inc64(q) == (first + |s + [q]|) % TWO64
  {
  }

  /** A packet on the network is sealed under a key with its sequence number as the nonce. */
  datatype Sealing = Sealing(key: Key, sequence: uint64)

  /** Connection requests are the one type that is not sealed. */
  predicate Seals(e: Effect) {
    e.Sent? && e.to != NoAddress && !e.packet.Request?
  }

  /** The keys and sequence numbers of everything that was sealed for the network. */
  function Sealings(t: Trace): seq<Sealing> {
    match t
    case Nothing => []
    case Then(past, e) => if Seals(e) then Sealings(past) + [Sealing(e.key, e.sequence)] else Sealings(past)
  }

  ghost predicate AllDistinct(s: seq<Sealing>) {
    forall i, j :: 0 <= i < j < |s| ==> s[i] != s[j]
  }

  lemma NewSealing(s: seq<Sealing>, x: Sealing)
    requires AllDistinct(s) && x !in s
    ensures AllDistinct(s + [x])
  {
  }

  // ----- the keys of a server's clients -----

  /** The keys under which the client in the slot was taken in from the network. */
  function Holder(t: Trace, slot: int): Option<Keys> {
    match t
    case Nothing => None
    case Then(past, e) =>
      if e.Accepted? && e.slot == slot then if e.address != NoAddress then Some(e.keys) else None
      else Holder(past, slot)
  }

  /** The keys the server seals with for the clients it took in from the network, one for each. */
  function SeatKeys(t: Trace): seq<Key> {
    match t
    case Nothing => []
    case Then(past, e) =>
      if e.Accepted? && e.address != NoAddress then SeatKeys(past) + [e.keys.send] else SeatKeys(past)
  }

  ghost predicate KeysDiffer(ks: seq<Key>) {
    forall i, j :: 0 <= i < j < |ks| ==> ks[i] != ks[j]
  }

  lemma NewKey(ks: seq<Key>, k: Key)
    ensures KeysDiffer(ks + [k]) <==> KeysDiffer(ks) && k !in ks
  {
    assert (ks + [k])[|ks|] == k && forall i :: 0 <= i < |ks| ==> (ks + [k])[i] == ks[i];
  }

  lemma {:induction false} HolderWasSeated(t: Trace, slot: int)
    ensures Holder(t, slot).Some? ==> Holder(t, slot).value.send in SeatKeys(t)
  {
    if t.Then? {
      HolderWasSeated(t.past, slot);
    }
  }

  /** When every client was taken in under a key of its own, different slots have different keys. */
  lemma {:induction false} HoldersDiffer(t: Trace, i: int, j: int)
    requires i != j && KeysDiffer(SeatKeys(t)) && Holder(t, i).Some? && Holder(t, j).Some?
    ensures Holder(t, i).value.send != Holder(t, j).value.send
  {
    var e := t.last;
    HolderWasSeated(t.past, i);
    HolderWasSeated(t.past, j);
    if e.Accepted? && e.address != NoAddress {
      NewKey(SeatKeys(t.past), e.keys.send);
    }
    if !(e.Accepted? && (e.slot == i || e.slot == j)) {
      HoldersDiffer(t.past, i, j);
    }
  }

  // ----- payloads sent and taken -----

  /** A payload on its way: its bytes, its sequence number, and the key and protocol id it was sealed
      under. */
  datatype Sending = Sending(data: bytes, sequence: uint64, key: Key, protocolId: uint64)

  predicate CarriesPayload(e: Effect) {
    Seals(e) && e.packet.Payload?
  }

  function SendingOf(e: Effect): Sending
    requires CarriesPayload(e)
  {
    Sending(e.packet.data, e.sequence, e.key, e.protocolId)
  }

  /** The payloads that were sealed for the network. */
  function PayloadsSent(t: Trace): seq<Sending> {
    match t
    case Nothing => []
    case Then(past, e) => if CarriesPayload(e) then PayloadsSent(past) + [SendingOf(e)] else PayloadsSent(past)
  }

  /** Those among them for the client in a slot. */
  function PayloadsTo(t: Trace, slot: int): seq<Sending> {
    match t
    case Nothing => []
    case Then(past, e) =>
      if CarriesPayload(e) && e.slot == slot then PayloadsTo(past, slot) + [SendingOf(e)] else PayloadsTo(past, slot)
  }

  /** A payload that the application took from a slot. */
  datatype Handing = Handing(slot: int, item: Item)

  function Handings(t: Trace): seq<Handing> {
    match t
    case Nothing => []
    case Then(past, e) => if e.Handed? then Handings(past) + [Handing(e.slot, e.item)] else Handings(past)
  }

  /** No payload was handed over or sent. */
  ghost predicate Unsaid(t: Trace, u: Trace) {
    && Handings(u) == Handings(t) && PayloadsSent(u) == PayloadsSent(t)
    && (forall i: int :: PayloadsTo(u, i) == PayloadsTo(t, i))
  }

  lemma UnsaidItself(t: Trace)
    ensures Unsaid(t, t)
  {
  }

  lemma UnsaidOne(t: Trace, e: Effect)
    requires !e.Handed? && !CarriesPayload(e)
    ensures Unsaid(t, Then(t, e))
  {
  }

  lemma UnsaidTwice(t: Trace, u: Trace, v: Trace)
    requires Unsaid(t, u) && Unsaid(u, v)
    ensures Unsaid(t, v)
  {
    hide Handings, PayloadsSent, PayloadsTo;
  }

  /** The packets that passed the reader. */
  function Readings(t: Trace): seq<Effect> {
    match t
    case Nothing => []
    case Then(past, e) => if e.Processed? then Readings(past) + [e] else Readings(past)
  }

  /** The packet a queued item came from. */
  predicate ReadAs(e: Effect, item: Item, key: Key) {
    e.Processed? && e.packet == Payload(item.payload) && e.sequence == item.sequence && e.readKey == Some(key)
  }

  /** The packets sent for a slot, or for GLOBAL, over the whole run. */
  function SentTo(t: Trace, slot: int): seq<Effect> {
    match t
    case Nothing => []
    case Then(past, e) => if e.Sent? && e.slot == slot then SentTo(past, slot) + [e] else SentTo(past, slot)
  }

  // ----- one trace going on from another -----

  /** The effect occurs in the trace. */
  predicate Occurs(t: Trace, e: Effect) {
    t.Then? && (t.last == e || Occurs(t.past, e))
  }

  /** The second trace goes on from the first. */
  predicate Extends(t: Trace, u: Trace) {
    t == u || (u.Then? && Extends(t, u.past))
  }

  lemma {:induction false} OccursLater(t: Trace, u: Trace, e: Effect)
    requires Occurs(t, e) && Extends(t, u)
    ensures Occurs(u, e)
  {
    if t != u {
      OccursLater(t, u.past, e);
    }
  }

  lemma {:induction false} ExtendsTwice(t: Trace, u: Trace, v: Trace)
    requires Extends(t, u) && Extends(u, v)
    ensures Extends(t, v)
  {
    if u != v {
      ExtendsTwice(t, u, v.past);
    }
  }

  lemma ExtendsByOne(t: Trace, u: Trace, e: Effect)
    requires Extends(t, u)
    ensures Extends(t, Then(u, e))
  {
  }

  lemma {:induction false} WrappedBefore(t: Trace, u: Trace, slot: int)
    requires Extends(t, u) && NeverWraps(u, slot)
    ensures NeverWraps(t, slot)
  {
    if t != u {
      WrappedBefore(t, u.past, slot);
    }
  }

  /** The later trace seals this again after the earlier one. */
  ghost predicate SealsSince(t: Trace, u: Trace, x: Sealing) {
    Sealings(t) <= Sealings(u) && x in Sealings(u)[|Sealings(t)|..]
  }

  lemma {:induction false} SealingsExtend(t: Trace, u: Trace)
    requires Extends(t, u)
    ensures Sealings(t) <= Sealings(u)
  {
    if t != u {
      SealingsExtend(t, u.past);
    }
  }

  // ----- a client's progress -----

  predicate IsChallengeFrom(e: Effect, a: Address) {
    e.Processed? && e.packet.Challenge? && e.from == a
  }

  predicate IsKeepAliveFrom(e: Effect, a: Address) {
    e.Processed? && e.packet.KeepAlive? && e.from == a
  }

  /** Since the client last entered the request state it processed a challenge from a. */
  predicate Challenged(t: Trace, a: Address) {
    t.Then? && !(t.last.Changed? && t.last.after == 1)
    && (IsChallengeFrom(t.last, a) || Challenged(t.past, a))
  }

  /** Since then it processed a challenge and, later, a keep-alive from a. */
  predicate Confirmed(t: Trace, a: Address) {
    t.Then? && !(t.last.Changed? && t.last.after == 1)
    && ((IsKeepAliveFrom(t.last, a) && Challenged(t.past, a)) || Confirmed(t.past, a))
  }

  /** The queued item is the payload of the packet processed just before. */
  predicate CarriesLastPayload(t: Trace, from: Address, item: Item) {
    && t.Then? && t.last.Processed? && t.last.from == from && t.last.packet == Payload(item.payload)
    && t.last.sequence == item.sequence
  }

  /** Every network payload was queued as it was received, after such a handshake with its sender. */
  predicate QueuesConfirmed(t: Trace) {
    t.Then? ==>
      && QueuesConfirmed(t.past)
      && (t.last.Queued? && t.last.from != NoAddress ==>
            Confirmed(t.past, t.last.from) && CarriesLastPayload(t.past, t.last.from, t.last.item))
  }

  // ----- what a server granted -----

  /** Since the server last started it granted a request from the address. */
  predicate GrantedTo(t: Trace, a: Address) {
    t.Then? && !t.last.Started? && ((t.last.Granted? && t.last.to == a) || GrantedTo(t.past, a))
  }

  /** Since then it granted a request for this client id and user data. */
  predicate GrantedToken(t: Trace, clientId: uint64, userData: UserData) {
    t.Then? && !t.last.Started?
    && ((t.last.Granted? && t.last.clientId == clientId && t.last.userData == userData)
        || GrantedToken(t.past, clientId, userData))
  }

  predicate EverStopped(t: Trace) {
    t.Then? && (t.last.Stopped? || EverStopped(t.past))
  }

  /** How often the client entered one of the states 1, 2 and 3. */
  function LiveChanges(t: Trace): nat {
    match t
    case Nothing => 0
    case Then(past, e) => LiveChanges(past) + if e.Changed? && e.after > 0 then 1 else 0
  }
}

/** Where every allocated packet is. */
module Memory {
  import opened Queue

  /** `next` allocations were made; `freed` counts the frees of each, `held` is what the
      application was handed and has not freed. */
  datatype Ledger = Ledger(next: nat, freed: multiset<nat>, held: multiset<nat>)

  const NEW_LEDGER: Ledger := Ledger(0, multiset{}, multiset{})

  function Alloc(m: Ledger): (nat, Ledger) {
    (m.next, m.(next := m.next + 1))
  }

  function Free(m: Ledger, id: nat): Ledger {
    m.(freed := m.freed + multiset{id})
  }

  function Hand(m: Ledger, id: nat): Ledger {
    m.(held := m.held + multiset{id})
  }

  function GiveBack(m: Ledger, id: nat): Ledger {
    Ledger(m.next, m.freed + multiset{id}, m.held - multiset{id})
  }

  ghost function Ids(items: seq<Item>): multiset<nat> {
    if items == [] then multiset{} else multiset{items[0].id} + Ids(items[1..])
  }

  lemma {:induction false} IdsAppend(xs: seq<Item>, x: Item)
    ensures Ids(xs + [x]) == Ids(xs) + multiset{x.id}
  {
    if xs == [] {
      assert xs + [x] == [x] && [x][1..] == [];
    } else {
      IdsAppend(xs[1..], x);
      assert (xs + [x])[1..] == xs[1..] + [x];
    }
  }

  /** Every packet allocated so far, once. */
  ghost function Allocated(n: nat): multiset<nat> {
    if n == 0 then multiset{} else Allocated(n - 1) + multiset{n - 1}
  }

  lemma {:induction false} AllocatedOnce(n: nat, id: nat)
    ensures Allocated(n)[id] == if id < n then 1 else 0
  {
    if n > 0 {
      AllocatedOnce(n - 1, id);
    }
  }

  /** Conservation: a packet is queued, held or freed, in exactly one of these, exactly once. */
  ghost predicate Balanced(m: Ledger, queued: multiset<nat>) {
    queued + m.held + m.freed == Allocated(m.next)
  }

  lemma EachInOnePlace(m: Ledger, queued: multiset<nat>, id: nat)
    requires Balanced(m, queued)
    ensures queued[id] + m.held[id] + m.freed[id] == if id < m.next then 1 else 0
  {
    AllocatedOnce(m.next, id);
    assert (queued + m.held + m.freed)[id] == queued[id] + m.held[id] + m.freed[id];
  }

  lemma SpendBalanced(m: Ledger, queued: multiset<nat>)
    requires Balanced(m, queued)
    ensures Balanced(Free(Alloc(m).1, m.next), queued)
  {
    var before := queued + m.held + m.freed;
    assert queued + m.held + (m.freed + multiset{m.next}) == before + multiset{m.next};
  }

  lemma GiveBackBalanced(m: Ledger, queued: multiset<nat>, id: nat)
    requires Balanced(m, queued) && id in m.held
    ensures Balanced(GiveBack(m, id), queued)
  {
    assert m.held - multiset{id} + multiset{id} == m.held;
    assert queued + (m.held - multiset{id}) + (m.freed + multiset{id}) == queued + m.held + m.freed;
  }
}
