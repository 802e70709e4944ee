/** The server's table of encryption mappings, and the address map with expiry it implements. */
module Mappings {
  import opened Types

  /** One entry across the manager's parallel arrays. */
  datatype Mapping = Mapping(
    timeout: int32,
    expireTime: real,
    lastAccess: real,
    address: Address,
    sendKey: Key,
    receiveKey: Key)

  /** `num` is the high-water mark num_encryption_mappings. */
  datatype Manager = Manager(num: nat, entries: seq<Mapping>)

  function Unused(): Mapping {
    Mapping(0, -1.0, -1000.0, NoAddress, ZERO_KEY, ZERO_KEY)
  }

  function Reset(size: nat): (m: Manager)
    ensures |m.entries| == size
  {
    Manager(0, seq(size, _ => Unused()))
  }

  predicate Expired(e: Mapping, time: real) {
    || (e.timeout > 0 && e.lastAccess + e.timeout as real < time)
    || (e.expireTime >= 0.0 && e.expireTime < time)
  }

  predicate Live(e: Mapping, time: real) {
    e.address != NoAddress && !Expired(e, time)
  }

  predicate Matches(e: Mapping, a: Address, time: real) {
    SameAddress(e.address, a) && !Expired(e, time)
  }

  function WithoutAddress(e: Mapping): Mapping {
    e.(address := NoAddress)
  }

  // ----- the scans -----

  /** The first index in [i, n) with an unexpired entry for the address, or n. */
  function ScanLive(es: seq<Mapping>, i: nat, n: nat, a: Address, time: real): (k: nat)
    requires i <= n <= |es|
    ensures i <= k <= n
    ensures k < n ==> Matches(es[k], a, time)
    ensures forall j :: i <= j < k ==> !Matches(es[j], a, time)
    decreases n - i
  {
    if i == n then n
    else if Matches(es[i], a, time) then i
    else ScanLive(es, i + 1, n, a, time)
  }

  /** The first index at or after i whose entry can be reused, or |es|. */
  function ScanFree(es: seq<Mapping>, i: nat, time: real): (k: nat)
    requires i <= |es|
    ensures i <= k <= |es|
    ensures k < |es| ==> !Live(es[k], time)
    ensures forall j :: i <= j < k ==> Live(es[j], time)
    decreases |es| - i
  {
    if i == |es| then i
    else if es[i].address == NoAddress || Expired(es[i], time) then i
    else ScanFree(es, i + 1, time)
  }

  /** The first index in [i, n) with any entry for the address, or n. */
  function ScanAddress(es: seq<Mapping>, i: nat, n: nat, a: Address): (k: nat)
    requires i <= n <= |es|
    ensures i <= k <= n
    ensures k < n ==> SameAddress(es[k].address, a)
    ensures forall j :: i <= j < k ==> !SameAddress(es[j].address, a)
    decreases n - i
  {
    if i == n then n
    else if SameAddress(es[i].address, a) then i
    else ScanAddress(es, i + 1, n, a)
  }

  /** The walk back of remove: from n - 1 down, expired entries lose their address until an
      unexpired one stops the walk.  Returns the table and the new high-water mark. */
  function WalkBack(es: seq<Mapping>, n: nat, time: real): (r: (seq<Mapping>, nat))
    requires n <= |es|
    ensures |r.0| == |es| && r.1 <= n
    ensures forall j :: 0 <= j < r.1 || n <= j < |es| ==> r.0[j] == es[j]
    ensures forall j :: r.1 <= j < n ==> Expired(es[j], time) && r.0[j] == WithoutAddress(es[j])
    ensures r.1 > 0 ==> !Expired(es[r.1 - 1], time)
    decreases n
  {
    if n == 0 then (es, 0)
    else if !Expired(es[n - 1], time) then (es, n)
    else
      var stripped := es[n - 1 := WithoutAddress(es[n - 1])];
      var (walked, mark) := WalkBack(stripped, n - 1, time);
      assert forall j :: 0 <= j < n - 1 ==> stripped[j] == es[j];
      assert walked[n - 1] == stripped[n - 1];
      (walked, mark)
  }

  // ----- the operations -----

  function NewMapping(a: Address, sendKey: Key, receiveKey: Key, time: real, expireTime: real, timeout: int32): Mapping {
    Mapping(timeout, expireTime, time, a, sendKey, receiveKey)
  }

  function Add(m: Manager, e: Mapping, time: real): (r: (bool, Manager))
    requires m.num <= |m.entries|
    ensures |r.1.entries| == |m.entries| && r.1.num <= |m.entries|
  {
    var i := ScanLive(m.entries, 0, m.num, e.address, time);
    if i < m.num then (true, m.(entries := m.entries[i := e.(address := m.entries[i].address)]))
    else
      var k := ScanFree(m.entries, 0, time);
      if k < |m.entries| then (true, Manager(if k + 1 > m.num then k + 1 else m.num, m.entries[k := e]))
      else (false, m)
  }

  function Remove(m: Manager, a: Address, time: real): (r: (bool, Manager))
    requires m.num <= |m.entries|
    ensures |r.1.entries| == |m.entries| && r.1.num <= |m.entries|
  {
    var i := ScanAddress(m.entries, 0, m.num, a);
    if i == m.num then (false, m)
    else
      var es := m.entries[i := Unused().(timeout := m.entries[i].timeout)];
      if i + 1 == m.num then
        var (walked, n) := WalkBack(es, i, time);
        (true, Manager(n, walked))
      else (true, m.(entries := es))
  }

  /** The index of the mapping, or -1; a hit is an access. */
  function Find(m: Manager, a: Address, time: real): (r: (int, Manager))
    requires m.num <= |m.entries|
    ensures |r.1.entries| == |m.entries| && r.1.num == m.num && -1 <= r.0 < m.num
  {
    var i: int := ScanLive(m.entries, 0, m.num, a, time);
    if i < m.num then (i, m.(entries := m.entries[i := m.entries[i].(lastAccess := time)])) else (-1, m)
  }

  function Touch(m: Manager, i: nat, a: Address, time: real): (r: (bool, Manager))
    requires i < m.num <= |m.entries|
    ensures |r.1.entries| == |m.entries| && r.1.num == m.num
  {
    if !SameAddress(m.entries[i].address, a) then (false, m)
    else (true, m.(entries := m.entries[i := m.entries[i].(lastAccess := time)]))
  }

  function SetExpireTime(m: Manager, i: nat, expireTime: real): (r: Manager)
    requires i < m.num <= |m.entries|
    ensures |r.entries| == |m.entries| && r.num == m.num
  {
    m.(entries := m.entries[i := m.entries[i].(expireTime := expireTime)])
  }

  // ----- the table invariant -----

  /** Entries at or above the high-water mark are unused, and a live entry is the lowest entry of
      any age for its address, so each address has at most one live entry. */
  ghost predicate Inv(m: Manager, time: real) {
    && m.num <= |m.entries|
    && (forall i :: m.num <= i < |m.entries| ==> m.entries[i].address == NoAddress)
    && (forall i, j :: 0 <= i < j < |m.entries| && Live(m.entries[j], time) ==>
          m.entries[i].address != m.entries[j].address)
  }

  lemma ResetInv(size: nat, time: real)
    ensures Inv(Reset(size), time)
  {
  }

  lemma TickInv(m: Manager, now: real, later: real)
    requires Inv(m, now) && now <= later
    ensures Inv(m, later)
  {
  }

  /** Two live entries for one address are the same entry. */
  lemma LiveUnique(m: Manager, time: real, i: nat, j: nat)
    requires Inv(m, time) && i < |m.entries| && j < |m.entries|
    requires Live(m.entries[i], time) && Live(m.entries[j], time)
    requires m.entries[i].address == m.entries[j].address
    ensures i == j && i < m.num
  {
  }

  /** A live entry other than the one for `a` is untouched and stays below the mark. */
  ghost predicate KeepsOthers(m: Manager, m': Manager, a: Address, time: real) {
    && |m'.entries| == |m.entries|
    && (forall i :: 0 <= i < |m.entries| && Live(m.entries[i], time) && m.entries[i].address != a ==>
          m'.entries[i] == m.entries[i] && i < m'.num)
  }

  /** Every live entry afterwards is either an old live one or the named new one. */
  ghost predicate OnlyAdds(m: Manager, m': Manager, a: Address, time: real) {
    forall i :: 0 <= i < |m'.entries| && |m.entries| == |m'.entries| && Live(m'.entries[i], time)
                && m'.entries[i].address != a ==>
      m'.entries[i] == m.entries[i]
  }

  lemma AddInv(m: Manager, e: Mapping, time: real)
    requires Inv(m, time)
    ensures Inv(Add(m, e, time).1, time)
    ensures KeepsOthers(m, Add(m, e, time).1, e.address, time)
    ensures OnlyAdds(m, Add(m, e, time).1, e.address, time)
    ensures !Add(m, e, time).0 ==> Add(m, e, time).1 == m
  {
  }

  /** What add binds: afterwards the only live entry for the address is the new one. */
  lemma AddBinds(m: Manager, e: Mapping, time: real, i: nat)
    requires Inv(m, time) && Add(m, e, time).0 && e.address != NoAddress && i < |m.entries|
    requires Live(Add(m, e, time).1.entries[i], time) && Add(m, e, time).1.entries[i].address == e.address
    ensures Add(m, e, time).1.entries[i] == e
  {
  }

  /** Add fails exactly when the address has no live entry and every entry is live. */
  lemma AddFails(m: Manager, e: Mapping, time: real)
    requires Inv(m, time)
    ensures !Add(m, e, time).0 <==>
            && (forall i :: 0 <= i < |m.entries| ==> Live(m.entries[i], time))
            && (forall i :: 0 <= i < |m.entries| ==> m.entries[i].address != e.address)
  {
  }

  lemma RemoveInv(m: Manager, a: Address, time: real)
    requires Inv(m, time)
    ensures Inv(Remove(m, a, time).1, time)
    ensures KeepsOthers(m, Remove(m, a, time).1, a, time)
    ensures OnlyAdds(m, Remove(m, a, time).1, a, time)
    ensures a != NoAddress ==>
              forall i :: 0 <= i < |m.entries| && Live(Remove(m, a, time).1.entries[i], time) ==>
                Remove(m, a, time).1.entries[i].address != a
  {
  }

  /** Removing the entry just below the mark lowers the mark to an unexpired entry, or to 0, with no address
      left above it; removing any other entry leaves the mark. */
  lemma RemoveLowersMark(m: Manager, a: Address, time: real, i: nat)
    requires Inv(m, time) && a != NoAddress && i < m.num && m.entries[i].address == a
    requires forall j :: 0 <= j < i ==> m.entries[j].address != a
    ensures var r := Remove(m, a, time).1;
            if i + 1 == m.num then
              && r.num < m.num && (r.num > 0 ==> !Expired(r.entries[r.num - 1], time))
              && (forall j :: r.num <= j < |r.entries| ==> r.entries[j].address == NoAddress)
            else r.num == m.num
  {
    assert ScanAddress(m.entries, 0, m.num, a) == i;
    hide Expired;
  }

  lemma TouchInv(m: Manager, i: nat, a: Address, time: real)
    requires Inv(m, time) && i < m.num && Live(m.entries[i], time)
    ensures Inv(Touch(m, i, a, time).1, time)
    ensures Touch(m, i, a, time).0 <==> m.entries[i].address == a
    ensures Live(Touch(m, i, a, time).1.entries[i], time)
  {
  }

  lemma FindInv(m: Manager, a: Address, time: real)
    requires Inv(m, time)
    ensures Inv(Find(m, a, time).1, time)
    ensures Find(m, a, time).0 >= 0 ==>
              && Live(m.entries[Find(m, a, time).0], time) && m.entries[Find(m, a, time).0].address == a
              && Live(Find(m, a, time).1.entries[Find(m, a, time).0], time)
    ensures Find(m, a, time).0 == -1 ==>
              && Find(m, a, time).1 == m
              && (forall k :: 0 <= k < |m.entries| && Live(m.entries[k], time) ==> m.entries[k].address != a)
  {
  }

  lemma SetExpireInv(m: Manager, i: nat, time: real)
    requires Inv(m, time) && i < m.num && Live(m.entries[i], time)
    ensures Inv(SetExpireTime(m, i, -1.0), time)
    ensures Live(SetExpireTime(m, i, -1.0).entries[i], time)
  {
  }

  // ----- the address map with expiry -----

  /** The addresses bound at a time. */
  ghost function Bound(m: Manager, time: real): set<Address> {
    set i | 0 <= i < |m.entries| && Live(m.entries[i], time) :: m.entries[i].address
  }

  /** The map the table stands for. */
  ghost function View(m: Manager, time: real): (v: map<Address, Mapping>)
    ensures v.Keys == Bound(m, time)
  {
    map a | a in Bound(m, time) :: m.entries[Slot(m, a, time)]
  }

  ghost function Slot(m: Manager, a: Address, time: real): (i: nat)
    requires a in Bound(m, time)
    ensures i < |m.entries| && Live(m.entries[i], time) && m.entries[i].address == a
  {
    var i :| 0 <= i < |m.entries| && Live(m.entries[i], time) && m.entries[i].address == a;
    i
  }

  lemma ViewOfLive(m: Manager, time: real, i: nat)
    requires Inv(m, time) && i < |m.entries| && Live(m.entries[i], time)
    ensures m.entries[i].address in View(m, time) && View(m, time)[m.entries[i].address] == m.entries[i]
  {
    assert m.entries[i].address in Bound(m, time);
    LiveUnique(m, time, i, Slot(m, m.entries[i].address, time));
  }

  /** Two tables stand for the same map when each live entry of one is live in the other. */
  lemma ViewIs(m: Manager, time: real, v: map<Address, Mapping>)
    requires Inv(m, time)
    requires forall i :: 0 <= i < |m.entries| && Live(m.entries[i], time) ==>
               m.entries[i].address in v && v[m.entries[i].address] == m.entries[i]
    requires forall a :: a in v ==> exists i :: 0 <= i < |m.entries| && Live(m.entries[i], time) && m.entries[i] == v[a]
                                                && v[a].address == a
    ensures View(m, time) == v
  {
    forall a | a in v
      ensures a in View(m, time) && View(m, time)[a] == v[a]
    {
      var i :| 0 <= i < |m.entries| && Live(m.entries[i], time) && m.entries[i] == v[a];
      ViewOfLive(m, time, i);
    }
    forall a | a in View(m, time)
      ensures a in v
    {
      assert Live(m.entries[Slot(m, a, time)], time);
    }
  }

  /** Time passing drops exactly the expired bindings. */
  lemma TickView(m: Manager, now: real, later: real)
    requires Inv(m, now) && now <= later
    ensures View(m, later) == MapTick(View(m, now), later)
  {
    TickInv(m, now, later);
    forall i | 0 <= i < |m.entries| && Live(m.entries[i], later)
      ensures m.entries[i].address in MapTick(View(m, now), later)
      ensures MapTick(View(m, now), later)[m.entries[i].address] == m.entries[i]
    {
      assert Live(m.entries[i], now);
      ViewOfLive(m, now, i);
    }
    forall a | a in MapTick(View(m, now), later)
      ensures exists i :: 0 <= i < |m.entries| && Live(m.entries[i], later)
                          && m.entries[i] == MapTick(View(m, now), later)[a]
                          && MapTick(View(m, now), later)[a].address == a
    {
      var i := Slot(m, a, now);
      assert View(m, now)[a] == m.entries[i];
    }
    ViewIs(m, later, MapTick(View(m, now), later));
  }

  // The reference machine: a map from addresses to mappings with room for `size` of them.

  /** A binding lasts its timeout since the last access, and no longer than its expiry; a timeout that is
      not positive, and a negative expiry, set no limit. */
  predicate Lasts(e: Mapping, time: real) {
    && (e.timeout <= 0 || time <= e.lastAccess + e.timeout as real)
    && (e.expireTime < 0.0 || time <= e.expireTime)
  }

  function MapTick(v: map<Address, Mapping>, time: real): map<Address, Mapping> {
    map a | a in v && Lasts(v[a], time) :: v[a]
  }

  function MapAdd(v: map<Address, Mapping>, size: nat, e: Mapping, time: real): (bool, map<Address, Mapping>) {
    if e.address in v || |v| < size then
      (true, if e.address == NoAddress then v else if Lasts(e, time) then v[e.address := e] else v - {e.address})
    else (false, v)
  }

  function MapAccess(v: map<Address, Mapping>, a: Address, time: real): map<Address, Mapping> {
    if a in v then v[a := v[a].(lastAccess := time)] else v
  }

  ghost function BoundBelow(es: seq<Mapping>, k: nat, time: real): set<Address>
    requires k <= |es|
  {
    set i | 0 <= i < k && Live(es[i], time) :: es[i].address
  }

  lemma BoundBelowNext(m: Manager, k: nat, time: real)
    requires Inv(m, time) && 0 < k <= |m.entries|
    ensures |BoundBelow(m.entries, k, time)|
            == |BoundBelow(m.entries, k - 1, time)| + if Live(m.entries[k - 1], time) then 1 else 0
  {
    var before := BoundBelow(m.entries, k - 1, time);
    var a := m.entries[k - 1].address;
    if Live(m.entries[k - 1], time) {
      assert a !in before;
      assert BoundBelow(m.entries, k, time) == before + {a};
    } else {
      assert BoundBelow(m.entries, k, time) == before;
    }
  }

  lemma {:induction false} BoundSize(m: Manager, k: nat, time: real)
    requires Inv(m, time) && k <= |m.entries|
    ensures |BoundBelow(m.entries, k, time)| <= k
    ensures |BoundBelow(m.entries, k, time)| == k <==> forall i :: 0 <= i < k ==> Live(m.entries[i], time)
  {
    if k > 0 {
      BoundSize(m, k - 1, time);
      BoundBelowNext(m, k, time);
    }
  }

  /** The map is full exactly when every entry is live. */
  lemma ViewSize(m: Manager, time: real)
    requires Inv(m, time)
    ensures |View(m, time)| <= |m.entries|
    ensures |View(m, time)| == |m.entries| <==> forall i :: 0 <= i < |m.entries| ==> Live(m.entries[i], time)
  {
    BoundSize(m, |m.entries|, time);
    assert BoundBelow(m.entries, |m.entries|, time) == Bound(m, time);
    assert |View(m, time)| == |View(m, time).Keys|;
  }

  ghost predicate AgreeExceptAt(v: map<Address, Mapping>, v': map<Address, Mapping>, a: Address) {
    forall b {:trigger b in v'} {:trigger b in v} :: b != a ==>
      (b in v' <==> b in v) && (b in v ==> v'[b] == v[b])
  }

  lemma AgreeingMaps(v: map<Address, Mapping>, v': map<Address, Mapping>, a: Address)
    requires AgreeExceptAt(v, v', a)
    ensures v' == if a in v' then v[a := v'[a]] else v - {a}
  {
  }

  /** A binding outside `a` survives, and is the only kind of binding outside `a`. */
  lemma ViewElsewhere(m: Manager, m': Manager, a: Address, time: real)
    requires Inv(m, time) && Inv(m', time)
    requires KeepsOthers(m, m', a, time) && OnlyAdds(m, m', a, time)
    ensures AgreeExceptAt(View(m, time), View(m', time), a)
  {
    hide View;
    forall b | b != a
      ensures b in View(m', time) <==> b in View(m, time)
      ensures b in View(m, time) ==> View(m', time)[b] == View(m, time)[b]
    {
      if b in View(m, time) {
        var i := Slot(m, b, time);
        ViewOfLive(m, time, i);
        assert m'.entries[i] == m.entries[i];
        ViewOfLive(m', time, i);
      }
      if b in View(m', time) {
        var i := Slot(m', b, time);
        ViewOfLive(m', time, i);
        assert m'.entries[i] == m.entries[i];
        ViewOfLive(m, time, i);
      }
    }
  }

  lemma AddView(m: Manager, e: Mapping, time: real)
    requires Inv(m, time)
    ensures Add(m, e, time).0 == MapAdd(View(m, time), |m.entries|, e, time).0
    ensures View(Add(m, e, time).1, time) == MapAdd(View(m, time), |m.entries|, e, time).1
  {
    hide Add, View;
    AddInv(m, e, time);
    AddFails(m, e, time);
    ViewSize(m, time);
    assert e.address in View(m, time)
      <==> exists i :: 0 <= i < |m.entries| && Live(m.entries[i], time) && m.entries[i].address == e.address;
    if Add(m, e, time).0 {
      AddAtAddress(m, e, time);
      ViewOfAdd(m, e, time);
    }
  }

  lemma ViewOfAdd(m: Manager, e: Mapping, time: real)
    requires Inv(m, time) && Add(m, e, time).0
    ensures View(Add(m, e, time).1, time)
            == if Live(e, time) then View(m, time)[e.address := e] else View(m, time) - {e.address}
  {
    hide Add, View;
    AddInv(m, e, time);
    AddAtAddress(m, e, time);
    ViewElsewhere(m, Add(m, e, time).1, e.address, time);
    AgreeingMaps(View(m, time), View(Add(m, e, time).1, time), e.address);
  }

  lemma AddAtAddress(m: Manager, e: Mapping, time: real)
    requires Inv(m, time) && Add(m, e, time).0
    ensures var v' := View(Add(m, e, time).1, time);
            && (e.address in v' <==> Live(e, time))
            && (e.address in v' ==> v'[e.address] == e)
  {
    var m' := Add(m, e, time).1;
    AddInv(m, e, time);
    if e.address in View(m', time) {
      AddBinds(m, e, time, Slot(m', e.address, time));
    }
    if Live(e, time) {
      var i := ScanLive(m.entries, 0, m.num, e.address, time);
      var k := if i < m.num then i else ScanFree(m.entries, 0, time);
      assert m'.entries[k] == e;
      ViewOfLive(m', time, k);
    }
  }

  lemma RemoveView(m: Manager, a: Address, time: real)
    requires Inv(m, time)
    ensures View(Remove(m, a, time).1, time) == View(m, time) - {a}
  {
    var m' := Remove(m, a, time).1;
    RemoveInv(m, a, time);
    ViewElsewhere(m, m', a, time);
    AgreeingMaps(View(m, time), View(m', time), a);
  }

  /** Updating one live entry in place updates one binding. */
  lemma UpdateView(m: Manager, i: nat, e: Mapping, time: real)
    requires Inv(m, time) && i < m.num && Live(m.entries[i], time)
    requires e.address == m.entries[i].address && Live(e, time)
    ensures Inv(m.(entries := m.entries[i := e]), time)
    ensures View(m.(entries := m.entries[i := e]), time) == View(m, time)[e.address := e]
  {
    var m' := m.(entries := m.entries[i := e]);
    ViewOfLive(m', time, i);
    ViewElsewhere(m, m', e.address, time);
    AgreeingMaps(View(m, time), View(m', time), e.address);
  }

  /** Find is map lookup, and a hit is an access. */
  lemma FindView(m: Manager, a: Address, time: real)
    requires Inv(m, time)
    ensures Find(m, a, time).0 >= 0 <==> a in View(m, time)
    ensures a in View(m, time) ==> m.entries[Find(m, a, time).0] == View(m, time)[a]
    ensures View(Find(m, a, time).1, time) == MapAccess(View(m, time), a, time)
  {
    var i := Find(m, a, time).0;
    FindInv(m, a, time);
    assert i == -1 ==> a !in Bound(m, time);
    if i >= 0 {
      ViewOfLive(m, time, i);
      UpdateView(m, i, m.entries[i].(lastAccess := time), time);
    }
  }

  lemma TouchView(m: Manager, i: nat, a: Address, time: real)
    requires Inv(m, time) && i < m.num && Live(m.entries[i], time) && m.entries[i].address == a
    ensures View(Touch(m, i, a, time).1, time) == MapAccess(View(m, time), a, time)
  {
    ViewOfLive(m, time, i);
    UpdateView(m, i, m.entries[i].(lastAccess := time), time);
  }

  lemma SetExpireView(m: Manager, i: nat, time: real)
    requires Inv(m, time) && i < m.num && Live(m.entries[i], time)
    ensures var e := m.entries[i].(expireTime := -1.0);
            View(SetExpireTime(m, i, -1.0), time) == View(m, time)[e.address := e]
  {
    UpdateView(m, i, m.entries[i].(expireTime := -1.0), time);
  }

  // ----- whole runs -----

  /** Calls to the manager.  Touch and KeepForever name an entry by the index that the last
      Find returned for its address, which is how the server uses them. */
  datatype Op =
    | AddOp(mapping: Mapping)
    | RemoveOp(address: Address)
    | FindOp(address: Address)
    | TouchOp(address: Address)
    | KeepForeverOp(address: Address)

  datatype Answer = Done | Added(ok: bool) | Found(mapping: Option<Mapping>)

  datatype Call = Call(time: real, op: Op)

  function Step(m: Manager, c: Call): (r: (Answer, Manager))
    requires m.num <= |m.entries|
    ensures r.1.num <= |r.1.entries| == |m.entries|
  {
    match c.op
    case AddOp(e) => var (ok, m') := Add(m, e, c.time); (Added(ok), m')
    case RemoveOp(a) => (Done, Remove(m, a, c.time).1)
    case FindOp(a) =>
      var (i, m') := Find(m, a, c.time);
      (Found(if i < 0 then None else Some(m.entries[i])), m')
    case TouchOp(a) =>
      var i := ScanLive(m.entries, 0, m.num, a, c.time);
      if i < m.num then (Done, Touch(m, i, a, c.time).1) else (Done, m)
    case KeepForeverOp(a) =>
      var i := ScanLive(m.entries, 0, m.num, a, c.time);
      if i < m.num then (Done, SetExpireTime(m, i, -1.0)) else (Done, m)
  }

  function MapStep(v: map<Address, Mapping>, size: nat, c: Call): (Answer, map<Address, Mapping>) {
    var now := MapTick(v, c.time);
    match c.op
    case AddOp(e) => var (ok, v') := MapAdd(now, size, e, c.time); (Added(ok), v')
    case RemoveOp(a) => (Done, now - {a})
    case FindOp(a) => (Found(if a in now then Some(now[a]) else None), MapAccess(now, a, c.time))
    case TouchOp(a) => (Done, MapAccess(now, a, c.time))
    case KeepForeverOp(a) => (Done, if a in now then now[a := now[a].(expireTime := -1.0)] else now)
  }

  lemma StepRefines(m: Manager, before: real, c: Call)
    requires Inv(m, before) && before <= c.time
    ensures Inv(Step(m, c).1, c.time)
    ensures Step(m, c).0 == MapStep(View(m, before), |m.entries|, c).0
    ensures View(Step(m, c).1, c.time) == MapStep(View(m, before), |m.entries|, c).1
  {
    hide Add, Remove, MapAdd, MapTick, View;
    TickInv(m, before, c.time);
    TickView(m, before, c.time);
    match c.op
    case AddOp(e) =>
      AddInv(m, e, c.time);
      AddView(m, e, c.time);
    case RemoveOp(a) =>
      RemoveInv(m, a, c.time);
      RemoveView(m, a, c.time);
    case FindOp(a) =>
      FindInv(m, a, c.time);
      FindView(m, a, c.time);
    case TouchOp(a) =>
      FindView(m, a, c.time);
      var i := ScanLive(m.entries, 0, m.num, a, c.time);
      if i < m.num {
        TouchInv(m, i, a, c.time);
        TouchView(m, i, a, c.time);
      }
    case KeepForeverOp(a) =>
      FindView(m, a, c.time);
      var i := ScanLive(m.entries, 0, m.num, a, c.time);
      if i < m.num {
        SetExpireInv(m, i, c.time);
        SetExpireView(m, i, c.time);
      }
  }

  predicate InOrder(start: real, calls: seq<Call>)
    decreases |calls|
  {
    calls == [] || (start <= calls[0].time && InOrder(calls[0].time, calls[1..]))
  }

  function Run(m: Manager, calls: seq<Call>): (r: seq<Answer>)
    requires m.num <= |m.entries|
    decreases |calls|
  {
    if calls == [] then []
    else var (answer, m') := Step(m, calls[0]); [answer] + Run(m', calls[1..])
  }

  function MapRun(v: map<Address, Mapping>, size: nat, calls: seq<Call>): seq<Answer>
    decreases |calls|
  {
    if calls == [] then []
    else var (answer, v') := MapStep(v, size, calls[0]); [answer] + MapRun(v', size, calls[1..])
  }

  /** Refinement over whole runs: a fresh table answers every sequence of calls in time order as
      an empty map with expiry and room for `size` bindings does. */
  lemma {:induction false} RunRefines(m: Manager, before: real, calls: seq<Call>)
    requires Inv(m, before) && InOrder(before, calls)
    ensures Run(m, calls) == MapRun(View(m, before), |m.entries|, calls)
    decreases |calls|
  {
    hide Step, MapStep, View;
    if calls != [] {
      StepRefines(m, before, calls[0]);
      RunRefines(Step(m, calls[0]).1, calls[0].time, calls[1..]);
    }
  }

  lemma FreshTableIsAnEmptyMap(size: nat, start: real, calls: seq<Call>)
    requires InOrder(start, calls)
    ensures Run(Reset(size), calls) == MapRun(map[], size, calls)
  {
    RunRefines(Reset(size), start, calls);
    assert View(Reset(size), start) == map[];
  }
}
