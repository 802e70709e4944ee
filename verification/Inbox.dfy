/** A receive queue together with the ledger and the trace its operations write to. Clients and
    server slots share these operations. */
module Inbox {
  import opened Types
  import opened Queue
  import opened Traces
  import opened Memory

  datatype Inbox = Inbox(queue: Ring, memory: Ledger, trace: Trace)

  /** Pops and frees until the queue is empty. */
  function PopAll(b: Inbox, slot: int): Inbox
    decreases b.queue.num
  {
    var (item, rest) := Pop(b.queue);
    match item
    case None => b
    case Some(x) => PopAll(Inbox(rest, Free(b.memory, x.id), Then(b.trace, Discarded(slot, x))), slot)
  }

  function FreeAll(m: Ledger, packets: seq<Option<Item>>): Ledger
    decreases |packets|
  {
    if packets == [] then m
    else FreeAll(if packets[0].None? then m else Free(m, packets[0].value.id), packets[1..])
  }

  /** netcode_packet_queue_clear: frees slots 0 .. num - 1 whatever they hold. */
  function Clear(b: Inbox): Inbox {
    b.(memory := FreeAll(b.memory, ClearFrees(b.queue)), queue := Cleared(b.queue))
  }

  function Drain(b: Inbox, slot: int): Inbox {
    Clear(PopAll(b, slot))
  }

  /** Pushes a payload; a full queue frees it. */
  function Enqueue(b: Inbox, slot: int, from: Address, item: Item): Inbox {
    var (ok, queue) := Push(b.queue, item);
    if ok then Inbox(queue, b.memory, Then(b.trace, Queued(slot, from, item)))
    else Inbox(queue, Free(b.memory, item.id), Then(b.trace, Dropped(slot, item)))
  }

  /** Hands the oldest payload to the application. */
  function Dequeue(b: Inbox, slot: int): (Option<Item>, Inbox) {
    var (item, rest) := Pop(b.queue);
    match item
    case None => (None, b)
    case Some(x) => (item, Inbox(rest, Hand(b.memory, x.id), Then(b.trace, Handed(slot, x))))
  }

  // ----- effects on the ledger -----

  lemma {:induction false} PopAllLedger(b: Inbox, slot: int)
    ensures var d := PopAll(b, slot);
            && d.memory == b.memory.(freed := b.memory.freed + Ids(Contents(b.queue)))
            && d.queue.num == 0 && |d.queue.slots| == |b.queue.slots|
    decreases b.queue.num
  {
    PopContents(b.queue);
    var (item, rest) := Pop(b.queue);
    if item.Some? {
      var x := item.value;
      assert Contents(b.queue)[1..] == Contents(rest);
      PopAllLedger(Inbox(rest, Free(b.memory, x.id), Then(b.trace, Discarded(slot, x))), slot);
    }
  }

  /** Draining frees exactly the queued packets, once each; the clear at the end frees nothing. */
  lemma DrainLedger(b: Inbox, slot: int)
    ensures Drain(b, slot).memory == b.memory.(freed := b.memory.freed + Ids(Contents(b.queue)))
    ensures Contents(Drain(b, slot).queue) == [] && Drain(b, slot).queue.num == 0
  {
    PopAllLedger(b, slot);
    assert ClearFrees(PopAll(b, slot).queue) == [];
  }

  lemma EnqueueLedger(b: Inbox, slot: int, from: Address, item: Item)
    ensures var d := Enqueue(b, slot, from, item);
            && d.memory.next == b.memory.next
            && Ids(Contents(d.queue)) + d.memory.held + d.memory.freed
               == Ids(Contents(b.queue)) + b.memory.held + b.memory.freed + multiset{item.id}
  {
    PushContents(b.queue, item);
    IdsAppend(Contents(b.queue), item);
  }

  /** A packet that was just allocated ends up queued or freed. */
  lemma EnqueueBalanced(b: Inbox, slot: int, from: Address, data: bytes, q: uint64)
    requires Balanced(b.memory, Ids(Contents(b.queue)))
    ensures var d := Enqueue(b.(memory := Alloc(b.memory).1), slot, from, Item(b.memory.next, data, q));
            Balanced(d.memory, Ids(Contents(d.queue)))
  {
    hide Enqueue, Contents, Ids;
    EnqueueLedger(b.(memory := Alloc(b.memory).1), slot, from, Item(b.memory.next, data, q));
  }

  lemma EnqueueEffect(b: Inbox, slot: int, from: Address, item: Item)
    ensures var r := Enqueue(b, slot, from, item);
            && r.trace.Then? && r.trace.past == b.trace
            && (r.trace.last == Queued(slot, from, item) || r.trace.last == Dropped(slot, item))
  {
  }

  lemma DequeueLedger(b: Inbox, slot: int)
    ensures var (item, d) := Dequeue(b, slot);
            && d.memory.next == b.memory.next
            && Ids(Contents(d.queue)) + d.memory.held + d.memory.freed
               == Ids(Contents(b.queue)) + b.memory.held + b.memory.freed
  {
    PopContents(b.queue);
  }

  // ----- effects on the order of delivery -----

  /** The queue of a slot holds what was queued and not yet removed, in order. */
  ghost predicate InOrder(b: Inbox, slot: int) {
    QueuedItems(b.trace, slot) == LeftItems(b.trace, slot) + Contents(b.queue)
  }

  lemma {:induction false} PopAllOrder(b: Inbox, slot: int)
    requires InOrder(b, slot)
    ensures InOrder(PopAll(b, slot), slot)
    decreases b.queue.num
  {
    PopContents(b.queue);
    var (item, rest) := Pop(b.queue);
    if item.Some? {
      PopOrder(b, slot);
      PopAllOrder(Inbox(rest, Free(b.memory, item.value.id), Then(b.trace, Discarded(slot, item.value))), slot);
    }
  }

  lemma PopOrder(b: Inbox, slot: int)
    requires InOrder(b, slot) && Pop(b.queue).0.Some?
    ensures forall m: Ledger, e: Effect :: Leaves(e, slot) && e.item == Pop(b.queue).0.value ==>
              InOrder(Inbox(Pop(b.queue).1, m, Then(b.trace, e)), slot)
  {
    PopContents(b.queue);
    var x := Pop(b.queue).0.value;
    var rest := Contents(Pop(b.queue).1);
    var removed := LeftItems(b.trace, slot);
    assert Contents(b.queue) == [x] + rest;
    assert removed + ([x] + rest) == removed + [x] + rest;
  }

  lemma DrainOrder(b: Inbox, slot: int)
    requires InOrder(b, slot)
    ensures InOrder(Drain(b, slot), slot)
  {
    PopAllOrder(b, slot);
    PopAllLedger(b, slot);
    assert Contents(PopAll(b, slot).queue) == [];
    assert Contents(Drain(b, slot).queue) == [];
  }

  lemma EnqueueOrder(b: Inbox, slot: int, from: Address, item: Item)
    requires InOrder(b, slot)
    ensures InOrder(Enqueue(b, slot, from, item), slot)
  {
    PushContents(b.queue, item);
    var removed := LeftItems(b.trace, slot);
    assert removed + (Contents(b.queue) + [item]) == removed + Contents(b.queue) + [item];
  }

  lemma DequeueOrder(b: Inbox, slot: int)
    requires InOrder(b, slot)
    ensures InOrder(Dequeue(b, slot).1, slot)
  {
    if Pop(b.queue).0.Some? {
      PopOrder(b, slot);
    }
  }

  /** Within a connection the application has taken, in order, all that was queued but what is
      still in the queue; and nothing was dropped while there was room. */
  ghost predicate Hands(b: Inbox, slot: int) {
    && |b.queue.slots| == PACKET_QUEUE_SIZE
    && QueuedItemsSince(b.trace, slot) == HandedSince(b.trace, slot) + Contents(b.queue)
    && DropsWhenFull(b.trace, slot)
  }

  lemma EnqueueHands(b: Inbox, slot: int, from: Address, item: Item)
    requires Hands(b, slot)
    ensures Hands(Enqueue(b, slot, from, item), slot)
  {
    PushContents(b.queue, item);
    hide Push, Contents;
    var handed := HandedSince(b.trace, slot);
    assert handed + (Contents(b.queue) + [item]) == handed + Contents(b.queue) + [item];
  }

  lemma DequeueHands(b: Inbox, slot: int)
    requires Hands(b, slot)
    ensures Hands(Dequeue(b, slot).1, slot)
  {
    PopContents(b.queue);
    hide Pop, Contents;
    if Pop(b.queue).0.Some? {
      var x := Pop(b.queue).0.value;
      var handed := HandedSince(b.trace, slot);
      assert Contents(b.queue) == [x] + Contents(Pop(b.queue).1);
      assert handed + ([x] + Contents(Pop(b.queue).1)) == handed + [x] + Contents(Pop(b.queue).1);
    }
  }

  lemma {:induction false} PopAllSize(b: Inbox, slot: int)
    ensures |PopAll(b, slot).queue.slots| == |b.queue.slots|
    decreases b.queue.num
  {
    PopAllLedger(b, slot);
  }

  lemma DrainSize(b: Inbox, slot: int)
    ensures |Drain(b, slot).queue.slots| == |b.queue.slots|
  {
    PopAllSize(b, slot);
  }

  lemma DequeueEffect(b: Inbox, slot: int)
    ensures var r := Dequeue(b, slot).1;
            r == b || (r.trace.Then? && r.trace.past == b.trace && r.trace.last.Handed? && r.trace.last.slot == slot)
  {
  }

  /** A queue that is drained when a connection begins or ends. */
  lemma DrainHands(b: Inbox, slot: int)
    requires |b.queue.slots| == PACKET_QUEUE_SIZE && DropsWhenFull(b.trace, slot)
    requires QueuedItemsSince(b.trace, slot) == HandedSince(b.trace, slot)
    ensures Hands(Drain(b, slot), slot)
  {
    DrainLedger(b, slot);
    PopAllSize(b, slot);
    DrainElsewhere(b, slot, slot);
    hide Contents, PopAll;
  }

  // ----- effects on the rest of the trace -----

  lemma {:induction false} PopAllExtends(b: Inbox, slot: int)
    ensures Extends(b.trace, PopAll(b, slot).trace)
    decreases b.queue.num
  {
    PopContents(b.queue);
    var (item, rest) := Pop(b.queue);
    if item.Some? {
      var next := Inbox(rest, Free(b.memory, item.value.id), Then(b.trace, Discarded(slot, item.value)));
      PopAllExtends(next, slot);
      ExtendsTwice(b.trace, next.trace, PopAll(b, slot).trace);
    }
  }

  /** Everything that can be read off a trace except the removals of one slot. */
  ghost predicate SameReadings(t: Trace, u: Trace, slot: int, s: int) {
    && QueuedItems(t, s) == QueuedItems(u, s)
    && QueuedSince(t, s) == QueuedSince(u, s)
    && SentSince(t, s) == SentSince(u, s)
    && (s != slot ==> LeftItems(t, s) == LeftItems(u, s))
    && QueuedItemsSince(t, s) == QueuedItemsSince(u, s)
    && AttemptItems(t, s) == AttemptItems(u, s)
    && HandedSince(t, s) == HandedSince(u, s)
    && (DropsWhenFull(t, s) <==> DropsWhenFull(u, s))
    && Seated(t, s) == Seated(u, s)
    && LiveChanges(t) == LiveChanges(u)
    && Sealings(t) == Sealings(u)
    && (QueuedFromHolder(t, s) <==> QueuedFromHolder(u, s))
    && (QueuesConfirmed(t) <==> QueuesConfirmed(u))
    && (EverStopped(t) <==> EverStopped(u))
  }

  lemma {:induction false} PopAllElsewhere(b: Inbox, slot: int, s: int)
    ensures SameReadings(PopAll(b, slot).trace, b.trace, slot, s)
    decreases b.queue.num
  {
    PopContents(b.queue);
    var (item, rest) := Pop(b.queue);
    if item.Some? {
      PopAllElsewhere(Inbox(rest, Free(b.memory, item.value.id), Then(b.trace, Discarded(slot, item.value))), slot, s);
    }
  }

  /** Draining one slot leaves every other reading of the trace alone. */
  lemma DrainElsewhere(b: Inbox, slot: int, s: int)
    ensures SameReadings(Drain(b, slot).trace, b.trace, slot, s)
  {
    PopAllElsewhere(b, slot, s);
  }

  lemma {:induction false} PopAllGrants(b: Inbox, slot: int, a: Address, id: uint64, userData: UserData)
    ensures GrantedTo(PopAll(b, slot).trace, a) <==> GrantedTo(b.trace, a)
    ensures GrantedToken(PopAll(b, slot).trace, id, userData) <==> GrantedToken(b.trace, id, userData)
    decreases b.queue.num
  {
    PopContents(b.queue);
    var (item, rest) := Pop(b.queue);
    if item.Some? {
      PopAllGrants(Inbox(rest, Free(b.memory, item.value.id), Then(b.trace, Discarded(slot, item.value))), slot,
                   a, id, userData);
    }
  }
}
