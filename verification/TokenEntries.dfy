/** The connect token entries, searched by one loop and updated in place. */
module TokenEntries {
  import opened Types
  import H = TokenHistory

  class ConnectTokenEntries {
    const entries: array<H.Entry>

    ghost function Model(): (es: seq<H.Entry>)
      reads this, entries
      ensures |es| == entries.Length
    {
      entries[..]
    }

    constructor (size: nat)
      requires size > 0
      ensures Model() == H.Reset(size) && fresh(entries)
    {
      entries := new H.Entry[size](_ => H.Blank());
    }

    method Reset()
      modifies entries
      ensures Model() == H.Reset(entries.Length)
    {
      var i := 0;
      while i < entries.Length
        invariant i <= entries.Length && forall j :: 0 <= j < i ==> entries[j] == H.Blank()
      {
        entries[i] := H.Blank();
        i := i + 1;
      }
    }

    /** Finds the entry with the tag and the oldest entry in one pass that never stops early. */
    method FindOrAdd(address: Address, mac: Mac, time: real) returns (ok: bool)
      requires entries.Length > 0
      modifies entries
      ensures (ok, Model()) == H.FindOrAdd(old(Model()), address, mac, time)
      ensures !ok ==> Model() == old(Model())
    {
      ghost var before := entries[..];
      var matching := -1;
      var oldest := -1;
      var oldestTime := 0.0;
      var i := 0;
      while i < entries.Length
        invariant i <= entries.Length && entries[..] == before
        invariant matching == H.LastMatch(before, mac, i)
        invariant i == 0 ==> oldest == -1
        invariant i > 0 ==> oldest == H.Oldest(before, i) && oldestTime == before[oldest].time
      {
        if entries[i].mac == mac {
          matching := i;
        }
        if oldest == -1 || entries[i].time < oldestTime {
          oldestTime := entries[i].time;
          oldest := i;
        }
        i := i + 1;
      }
      if matching == -1 {
        entries[oldest] := H.Entry(time, mac, address);
        return true;
      }
      return SameAddress(entries[matching].address, address);
    }
  }
}
