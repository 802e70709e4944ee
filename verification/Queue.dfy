/** The ring of received packets as a value. */
module Queue {
  import opened Types

  /** A received payload.  `id` names the allocation that holds it. */
  datatype Item = Item(id: nat, payload: bytes, sequence: uint64)

  datatype RingState = Ring(num: nat, start: nat, slots: seq<Option<Item>>)

  /** The array index k places after `start`: ( start + k ) % size. */
  function Wrap(size: nat, start: nat, k: nat): (i: nat)
    requires start < size && k <= size
    ensures i < size && i == if start + k < size then start + k else start + k - size
  {
    WrapOnce(size, start + k);
    (start + k) % size
  }

  lemma WrapOnce(size: nat, x: nat)
    requires 0 < size && x < 2 * size
    ensures x % size == if x < size then x else x - size
  {
    var d := x / size;
    assert x == size * d + x % size;
    assert d < 2 by {
      if d >= 2 {
        MulMonotone(size, 2, d);
      }
    }
  }

  predicate Valid(q: RingState) {
    && |q.slots| > 0
    && q.num <= |q.slots|
    && q.start < |q.slots|
    && (forall k :: 0 <= k < q.num ==> q.slots[Wrap(|q.slots|, q.start, k)].Some?)
  }

  type Ring = q: RingState | Valid(q) witness Ring(0, 0, [None])

  function Empty(size: nat): (q: Ring)
    requires size > 0
    ensures |q.slots| == size && Contents(q) == []
  {
    Ring(0, 0, seq(size, _ => None))
  }

  /** The queued items, oldest first. */
  function Contents(q: Ring): (s: seq<Item>)
    ensures |s| == q.num
  {
    seq(q.num, k requires 0 <= k < q.num => q.slots[Wrap(|q.slots|, q.start, k)].value)
  }

  /** netcode_packet_queue_push: false means the queue was full and the packet is to be freed. */
  function Push(q: Ring, x: Item): (r: (bool, Ring))
    ensures |r.1.slots| == |q.slots|
  {
    if q.num == |q.slots| then (false, q)
    else (true, Ring(q.num + 1, q.start, q.slots[Wrap(|q.slots|, q.start, q.num) := Some(x)]))
  }

  /** netcode_packet_queue_pop. The slot keeps its stale pointer, as in the source. */
  function Pop(q: Ring): (r: (Option<Item>, Ring))
    ensures |r.1.slots| == |q.slots|
  {
    if q.num == 0 then (None, q)
    else
      PopWraps(q);
      (q.slots[q.start], Ring(q.num - 1, Wrap(|q.slots|, q.start, 1), q.slots))
  }

  lemma PopWraps(q: Ring)
    requires q.num > 0
    ensures Wrap(|q.slots|, q.start, 0) == q.start
    ensures forall k :: 0 <= k < q.num - 1 ==>
              Wrap(|q.slots|, Wrap(|q.slots|, q.start, 1), k) == Wrap(|q.slots|, q.start, k + 1)
  {
  }

  lemma PushContents(q: Ring, x: Item)
    ensures Push(q, x).0 <==> |Contents(q)| < |q.slots|
    ensures Contents(Push(q, x).1) == if Push(q, x).0 then Contents(q) + [x] else Contents(q)
  {
  }

  lemma PopContents(q: Ring)
    ensures Pop(q).0 == if Contents(q) == [] then None else Some(Contents(q)[0])
    ensures Contents(Pop(q).1) == if Contents(q) == [] then [] else Contents(q)[1..]
  {
    if q.num > 0 {
      PopWraps(q);
    }
  }

  /** What netcode_packet_queue_clear hands to the free function: slots 0 .. num - 1. */
  function ClearFrees(q: Ring): seq<Option<Item>>
  {
    q.slots[..q.num]
  }

  function Cleared(q: Ring): (r: Ring)
    ensures |r.slots| == |q.slots|
  {
    Empty(|q.slots|)
  }

  /** Array index i holds a queued item. */
  ghost predicate Occupied(q: Ring, i: nat)
  {
    exists k :: 0 <= k < q.num && Wrap(|q.slots|, q.start, k) == i
  }

  /** clear frees the queued slots, and nothing else, exactly when the queue is empty, full, or
      starts at index 0: it counts from index 0 instead of the start index. */
  lemma ClearFreesTheQueue(q: Ring)
    ensures (forall i: nat :: i < q.num <==> Occupied(q, i))
            <==> q.num == 0 || q.num == |q.slots| || q.start == 0
  {
    if q.num == 0 {
    } else if q.start == 0 || q.num == |q.slots| {
      forall i: nat | i < q.num
        ensures Occupied(q, i)
      {
        var k := if i >= q.start then i - q.start else i + q.num - q.start;
        assert Wrap(|q.slots|, q.start, k) == i;
      }
    } else if q.start >= q.num {
      assert Wrap(|q.slots|, q.start, 0) == q.start;
      assert Occupied(q, q.start);
    } else {
      // the slot just before the queue is free, and clear frees it all the same
      var i := q.start - 1;
      assert i < q.num && !Occupied(q, i);
    }
  }
}
