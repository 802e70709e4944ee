/** The encryption manager over its table, scanned and updated in place. */
module EncryptionTable {
  import opened Types
  import M = Mappings

  class EncryptionManager {
    var numEncryptionMappings: nat
    const entries: array<M.Mapping>

    ghost predicate Valid()
      reads this, entries
    {
      numEncryptionMappings <= entries.Length
    }

    ghost function Model(): (m: M.Manager)
      reads this, entries
      ensures |m.entries| == entries.Length && m.num == numEncryptionMappings
    {
      M.Manager(numEncryptionMappings, entries[..])
    }

    constructor (size: nat)
      ensures Valid() && Model() == M.Reset(size) && fresh(entries)
    {
      numEncryptionMappings := 0;
      entries := new M.Mapping[size](_ => M.Unused());
    }

    method Reset()
      modifies this, entries
      ensures Valid() && Model() == M.Reset(entries.Length)
    {
      numEncryptionMappings := 0;
      var i := 0;
      while i < entries.Length
        invariant i <= entries.Length && numEncryptionMappings == 0
        invariant forall j :: 0 <= j < i ==> entries[j] == M.Unused()
      {
        entries[i] := M.Unused();
        i := i + 1;
      }
    }

    method Add(address: Address, sendKey: Key, receiveKey: Key, time: real, expireTime: real, timeout: int32)
      returns (ok: bool)
      requires Valid()
      modifies this, entries
      ensures Valid()
      ensures (ok, Model())
           == M.Add(old(Model()), M.NewMapping(address, sendKey, receiveKey, time, expireTime, timeout), time)
      ensures !ok ==> Model() == old(Model())
    {
      ghost var before := Model();
      ghost var mapping := M.NewMapping(address, sendKey, receiveKey, time, expireTime, timeout);
      var i := 0;
      while i < numEncryptionMappings
        invariant i <= numEncryptionMappings && Valid() && Model() == before
        invariant M.ScanLive(before.entries, 0, before.num, address, time)
               == M.ScanLive(before.entries, i, before.num, address, time)
      {
        if SameAddress(entries[i].address, address) && !M.Expired(entries[i], time) {
          entries[i] := entries[i].(timeout := timeout, expireTime := expireTime, lastAccess := time,
                                    sendKey := sendKey, receiveKey := receiveKey);
          return true;
        }
        i := i + 1;
      }
      i := 0;
      while i < entries.Length
        invariant i <= entries.Length && Valid() && Model() == before
        invariant M.ScanFree(before.entries, 0, time) == M.ScanFree(before.entries, i, time)
      {
        if entries[i].address == NoAddress || M.Expired(entries[i], time) {
          entries[i] := M.Mapping(timeout, expireTime, time, address, sendKey, receiveKey);
          if i + 1 > numEncryptionMappings {
            numEncryptionMappings := i + 1;
          }
          return true;
        }
        i := i + 1;
      }
      return false;
    }

    /** The walk back at the end of a removal: expired entries below n lose their address. */
    method WalkBack(n: nat, time: real) returns (mark: nat)
      requires n <= entries.Length
      modifies entries
      ensures (entries[..], mark) == M.WalkBack(old(entries[..]), n, time)
    {
      ghost var before := entries[..];
      var index: int := n - 1;
      while index >= 0 && M.Expired(entries[index], time)
        invariant -1 <= index < n
        invariant M.WalkBack(before, n, time) == M.WalkBack(entries[..], index + 1, time)
      {
        entries[index] := entries[index].(address := NoAddress);
        index := index - 1;
      }
      return index + 1;
    }

    method Remove(address: Address, time: real) returns (ok: bool)
      requires Valid()
      modifies this, entries
      ensures Valid() && (ok, Model()) == M.Remove(old(Model()), address, time)
    {
      ghost var before := Model();
      var i := 0;
      while i < numEncryptionMappings
        invariant i <= numEncryptionMappings && Valid() && Model() == before
        invariant M.ScanAddress(before.entries, 0, before.num, address)
               == M.ScanAddress(before.entries, i, before.num, address)
      {
        if SameAddress(entries[i].address, address) {
          entries[i] := M.Unused().(timeout := entries[i].timeout);
          if i + 1 == numEncryptionMappings {
            numEncryptionMappings := WalkBack(i, time);
          }
          return true;
        }
        i := i + 1;
      }
      return false;
    }

    method Find(address: Address, time: real) returns (index: int)
      requires Valid()
      modifies entries
      ensures Valid() && (index, Model()) == M.Find(old(Model()), address, time)
    {
      ghost var before := Model();
      var i := 0;
      while i < numEncryptionMappings
        invariant i <= numEncryptionMappings && Valid() && Model() == before
        invariant M.ScanLive(before.entries, 0, before.num, address, time)
               == M.ScanLive(before.entries, i, before.num, address, time)
      {
        if SameAddress(entries[i].address, address) && !M.Expired(entries[i], time) {
          entries[i] := entries[i].(lastAccess := time);
          return i;
        }
        i := i + 1;
      }
      return -1;
    }

    method Touch(index: nat, address: Address, time: real) returns (ok: bool)
      requires Valid() && index < numEncryptionMappings
      modifies entries
      ensures Valid() && (ok, Model()) == M.Touch(old(Model()), index, address, time)
      ensures !ok ==> Model() == old(Model())
    {
      if !SameAddress(entries[index].address, address) {
        return false;
      }
      entries[index] := entries[index].(lastAccess := time);
      return true;
    }

    method SetExpireTime(index: nat, expireTime: real)
      requires Valid() && index < numEncryptionMappings
      modifies entries
      ensures Valid() && Model() == M.SetExpireTime(old(Model()), index, expireTime)
    {
      entries[index] := entries[index].(expireTime := expireTime);
    }
  }
}
