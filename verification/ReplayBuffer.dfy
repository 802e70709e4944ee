/** The replay window as both implementations hold it: an array updated in place. */
module ReplayBuffer {
  import opened Types
  import R = Replay

  class ReplayProtection {
    var mostRecentSequence: uint64
    const receivedPacket: array<uint64>

    ghost predicate Valid()
      reads this, receivedPacket
    {
      0 < receivedPacket.Length <= TWO63
    }

    ghost function Model(): R.Window
      requires Valid()
      reads this, receivedPacket
    {
      R.Window(mostRecentSequence, receivedPacket[..])
    }

    constructor (size: nat)
      requires 0 < size <= TWO63
      ensures Valid() && Model() == R.Fresh(size) && fresh(receivedPacket)
    {
      mostRecentSequence := 0;
      receivedPacket := new uint64[size](_ => R.EMPTY);
    }

    /** A window taken over from a value. */
    constructor Holding(w: R.Window)
      ensures Valid() && Model() == w && fresh(receivedPacket)
    {
      mostRecentSequence := w.mostRecent;
      receivedPacket := new uint64[|w.received|](i requires 0 <= i < |w.received| => w.received[i]);
      new;
      assert receivedPacket[..] == w.received;
    }

    method Snapshot() returns (w: R.Window)
      requires Valid()
      ensures w == Model()
    {
      w := R.Window(mostRecentSequence, receivedPacket[..]);
    }

    /** Marks every slot as never used. */
    method Reset()
      requires Valid()
      modifies this, receivedPacket
      ensures Valid() && Model() == R.Fresh(receivedPacket.Length)
    {
      mostRecentSequence := 0;
      var i := 0;
      while i < receivedPacket.Length
        invariant i <= receivedPacket.Length && mostRecentSequence == 0
        invariant forall j :: 0 <= j < i ==> receivedPacket[j] == R.EMPTY
      {
        receivedPacket[i] := R.EMPTY;
        i := i + 1;
      }
    }

    method AlreadyReceived(sequence: uint64) returns (received: bool)
      requires Valid()
      modifies this, receivedPacket
      ensures Valid() && (received, Model()) == R.AlreadyReceived(old(Model()), sequence)
    {
      if sequence >= TWO63 {
        return false;
      }
      if (sequence + receivedPacket.Length) % TWO64 <= mostRecentSequence {
        return true;
      }
      if sequence > mostRecentSequence {
        mostRecentSequence := sequence;
      }
      var index := sequence % receivedPacket.Length;
      if receivedPacket[index] == R.EMPTY {
        receivedPacket[index] := sequence;
        return false;
      }
      if receivedPacket[index] >= sequence {
        return true;
      }
      receivedPacket[index] := sequence;
      return false;
    }
  }

  /** What a caller sees: the array, driven from a reset through any calls, refuses exactly what
      the ideal filter refuses. */
  method Judge(size: nat, history: seq<uint64>, sequence: uint64) returns (received: bool)
    requires 0 < size <= TWO63
    ensures received <==> sequence < TWO63 && (R.TooOld(size, history, sequence) || sequence in R.Accepted(size, history))
  {
    var window := new ReplayProtection(size);
    var i := 0;
    while i < |history|
      invariant i <= |history| && window.Valid() && fresh(window) && fresh(window.receivedPacket)
      invariant window.Model() == R.Feed(size, history[..i])
    {
      var _ := window.AlreadyReceived(history[i]);
      assert history[..i + 1][..i] == history[..i];
      i := i + 1;
    }
    assert history[..i] == history;
    R.WindowIsExact(size, history, sequence);
    received := window.AlreadyReceived(sequence);
  }
}
