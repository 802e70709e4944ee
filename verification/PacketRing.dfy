/** The packet queue as a ring over an array, updated in place. */
module PacketRing {
  import opened Types
  import Q = Queue

  class PacketQueue {
    var numPackets: nat
    var startIndex: nat
    const packets: array<Option<Q.Item>>

    ghost predicate Valid()
      reads this, packets
    {
      Q.Valid(Q.Ring(numPackets, startIndex, packets[..]))
    }

    ghost function Model(): Q.Ring
      requires Valid()
      reads this, packets
    {
      Q.Ring(numPackets, startIndex, packets[..])
    }

    constructor (size: nat)
      requires size > 0
      ensures Valid() && Model() == Q.Empty(size) && fresh(packets)
    {
      numPackets := 0;
      startIndex := 0;
      packets := new Option<Q.Item>[size](_ => None);
    }

    /** Frees the slots 0 .. num - 1, whatever the start index is, and empties the ring. */
    method Clear() returns (freed: seq<Option<Q.Item>>)
      requires Valid()
      modifies this, packets
      ensures Valid() && Model() == Q.Cleared(old(Model())) && freed == Q.ClearFrees(old(Model()))
    {
      freed := [];
      var i := 0;
      while i < numPackets
        invariant i <= numPackets <= packets.Length && freed == packets[..i]
      {
        freed := freed + [packets[i]];
        i := i + 1;
      }
      numPackets := 0;
      startIndex := 0;
      i := 0;
      while i < packets.Length
        invariant i <= packets.Length && numPackets == 0 && startIndex == 0
        invariant forall j :: 0 <= j < i ==> packets[j] == None
      {
        packets[i] := None;
        i := i + 1;
      }
      assert packets[..] == seq(packets.Length, _ => None);
    }

    /** False when the queue is full: the packet is then the caller's to free. */
    method Push(x: Q.Item) returns (ok: bool)
      requires Valid()
      modifies this, packets
      ensures Valid() && (ok, Model()) == Q.Push(old(Model()), x)
      ensures ok ==> Q.Contents(Model()) == old(Q.Contents(Model())) + [x]
      ensures !ok ==> Q.Contents(Model()) == old(Q.Contents(Model())) && |Q.Contents(Model())| == packets.Length
    {
      Q.PushContents(Model(), x);
      if numPackets == packets.Length {
        return false;
      }
      var index := Q.Wrap(packets.Length, startIndex, numPackets);
      ghost var pushed := Q.Push(Model(), x).1;
      packets[index] := Some(x);
      numPackets := numPackets + 1;
      assert Q.Ring(numPackets, startIndex, packets[..]) == pushed;
      return true;
    }

    method Pop() returns (x: Option<Q.Item>)
      requires Valid()
      modifies this
      ensures Valid() && (x, Model()) == Q.Pop(old(Model()))
      ensures x == if old(Q.Contents(Model())) == [] then None else Some(old(Q.Contents(Model()))[0])
      ensures Q.Contents(Model()) == if x == None then [] else old(Q.Contents(Model()))[1..]
    {
      Q.PopContents(Model());
      if numPackets == 0 {
        return None;
      }
      ghost var popped := Q.Pop(Model()).1;
      x := packets[startIndex];
      startIndex := Q.Wrap(packets.Length, startIndex, 1);
      numPackets := numPackets - 1;
      assert Q.Ring(numPackets, startIndex, packets[..]) == popped;
    }
  }
}
