/** The history of connect tokens already used, keyed by the tag of the private token. */
module TokenHistory {
  import opened Types

  datatype Entry = Entry(time: real, mac: Mac, address: Address)

  function Blank(): Entry {
    Entry(-1000.0, ZERO_MAC, NoAddress)
  }

  function Reset(size: nat): (es: seq<Entry>)
    ensures |es| == size
  {
    seq(size, _ => Blank())
  }

  /** The last index below n with the tag, or -1: the scan keeps overwriting its match. */
  function LastMatch(es: seq<Entry>, mac: Mac, n: nat): (k: int)
    requires n <= |es|
    ensures -1 <= k < n
    ensures k >= 0 ==> es[k].mac == mac
    ensures forall j :: k < j < n ==> es[j].mac != mac
  {
    if n == 0 then -1
    else if es[n - 1].mac == mac then n - 1
    else LastMatch(es, mac, n - 1)
  }

  /** The first index below n with the least time. */
  function Oldest(es: seq<Entry>, n: nat): (k: nat)
    requires 0 < n <= |es|
    ensures k < n
    ensures forall j :: 0 <= j < n ==> es[k].time <= es[j].time
    ensures forall j :: 0 <= j < k ==> es[k].time < es[j].time
  {
    if n == 1 then 0
    else
      var k := Oldest(es, n - 1);
      if es[n - 1].time < es[k].time then n - 1 else k
  }

  /** netcode_connect_token_entries_find_or_add. */
  function FindOrAdd(es: seq<Entry>, a: Address, mac: Mac, time: real): (r: (bool, seq<Entry>))
    requires |es| > 0
    ensures |r.1| == |es|
  {
    var matching := LastMatch(es, mac, |es|);
    if matching == -1 then (true, es[Oldest(es, |es|) := Entry(time, mac, a)])
    else (SameAddress(es[matching].address, a), es)
  }

  // ----- what the table keeps -----

  predicate Real(e: Entry) {
    e.time > -1000.0
  }

  /** Entries are blank or real, tags of real entries are distinct, and nothing is stamped later
      than now. */
  ghost predicate Inv(es: seq<Entry>, now: real) {
    && |es| > 0
    && (forall i :: 0 <= i < |es| ==> if Real(es[i]) then es[i].time <= now else es[i] == Blank())
    && (forall i, j :: 0 <= i < j < |es| && Real(es[i]) && Real(es[j]) ==> es[i].mac != es[j].mac)
  }

  lemma ResetInv(size: nat, now: real)
    requires size > 0
    ensures Inv(Reset(size), now)
  {
  }

  lemma FindOrAddInv(es: seq<Entry>, a: Address, mac: Mac, before: real, time: real)
    requires Inv(es, before) && before <= time && time > -1000.0
    ensures Inv(FindOrAdd(es, a, mac, time).1, time)
  {
  }

  /** A tag bound to an address is accepted from exactly that address, and the table stays. */
  lemma BoundTag(es: seq<Entry>, i: nat, a: Address, now: real, time: real)
    requires Inv(es, now) && i < |es| && Real(es[i]) && es[i].mac != ZERO_MAC
    ensures FindOrAdd(es, a, es[i].mac, time) == (es[i].address != NoAddress && es[i].address == a, es)
  {
    var k := LastMatch(es, es[i].mac, |es|);
    assert k >= i;
    assert Real(es[k]) && k == i;
  }

  /** An entry is evicted only when every entry is real and stamped no earlier than it. */
  lemma EvictsOnlyWhenFull(es: seq<Entry>, i: nat, a: Address, mac: Mac, now: real, time: real, j: nat)
    requires Inv(es, now) && i < |es| && j < |es| && Real(es[i])
    requires FindOrAdd(es, a, mac, time).1[i] != es[i]
    ensures Real(es[j]) && es[i].time <= es[j].time
  {
  }

  // ----- whole histories of calls -----

  datatype Call = Call(address: Address, mac: Mac, time: real)

  ghost predicate InOrder(calls: seq<Call>) {
    && (forall i :: 0 <= i < |calls| ==> calls[i].time > -1000.0)
    && (forall i, j :: 0 <= i < j < |calls| ==> calls[i].time <= calls[j].time)
  }

  function After(size: nat, calls: seq<Call>): (es: seq<Entry>)
    requires size > 0
    ensures |es| == size
  {
    if calls == [] then Reset(size)
    else
      var c := calls[|calls| - 1];
      FindOrAdd(After(size, calls[..|calls| - 1]), c.address, c.mac, c.time).1
  }

  lemma {:induction false} AfterInv(size: nat, calls: seq<Call>, now: real)
    requires size > 0 && InOrder(calls) && (calls != [] ==> calls[|calls| - 1].time <= now)
    ensures Inv(After(size, calls), now)
  {
    if calls == [] {
      ResetInv(size, now);
    } else {
      var c := calls[|calls| - 1];
      AfterInv(size, calls[..|calls| - 1], c.time);
      FindOrAddInv(After(size, calls[..|calls| - 1]), c.address, c.mac, c.time, c.time);
    }
  }

  /** Every real entry was put there by a call with its tag, time and address. */
  lemma {:induction false} EntriesComeFromCalls(size: nat, calls: seq<Call>, i: nat)
    requires size > 0 && i < size && InOrder(calls) && Real(After(size, calls)[i])
    ensures var e := After(size, calls)[i]; Call(e.address, e.mac, e.time) in calls
  {
    if calls != [] {
      var c := calls[|calls| - 1];
      var before := After(size, calls[..|calls| - 1]);
      if After(size, calls)[i] == before[i] {
        EntriesComeFromCalls(size, calls[..|calls| - 1], i);
      }
    }
  }

  /** The tags other than mac used in calls stamped since. */
  ghost function OtherTags(calls: seq<Call>, mac: Mac, since: real): set<Mac> {
    set i | 0 <= i < |calls| && calls[i].time >= since && calls[i].mac != mac :: calls[i].mac
  }

  ghost predicate Holds(es: seq<Entry>, e: Entry) {
    exists i :: 0 <= i < |es| && es[i] == e
  }

  lemma {:induction false} TagsDistinct(es: seq<Entry>, n: nat, now: real)
    requires Inv(es, now) && n <= |es| && (forall i :: 0 <= i < n ==> Real(es[i]))
    ensures |set i | 0 <= i < n :: es[i].mac| == n
  {
    if n > 0 {
      TagsDistinct(es, n - 1, now);
      var before := set i | 0 <= i < n - 1 :: es[i].mac;
      var last := es[n - 1].mac;
      assert last !in before;
      hide Inv;
      assert (set i | 0 <= i < n :: es[i].mac) == before + {last};
    }
  }

  /** A table that is full of entries stamped since some time saw that many tags since then. */
  lemma FullTableSawTags(size: nat, calls: seq<Call>, e: Entry, now: real)
    requires size > 0 && InOrder(calls) && Inv(After(size, calls), now) && Holds(After(size, calls), e)
    requires forall i :: 0 <= i < size ==> Real(After(size, calls)[i]) && e.time <= After(size, calls)[i].time
    ensures |OtherTags(calls, e.mac, e.time)| >= size - 1
  {
    var es := After(size, calls);
    var tags := set i | 0 <= i < size :: es[i].mac;
    TagsDistinct(es, size, now);
    forall m | m in tags - {e.mac}
      ensures m in OtherTags(calls, e.mac, e.time)
    {
      var i :| 0 <= i < size && es[i].mac == m;
      EntriesComeFromCalls(size, calls, i);
      var k :| 0 <= k < |calls| && calls[k] == Call(es[i].address, es[i].mac, es[i].time);
    }
    SubsetSize(tags - {e.mac}, OtherTags(calls, e.mac, e.time));
    assert e.mac in tags;
  }

  lemma {:induction false} SubsetSize(a: set<Mac>, b: set<Mac>)
    requires a <= b
    ensures |a| <= |b|
  {
    if a != {} {
      var m :| m in a;
      SubsetSize(a - {m}, b - {m});
    }
  }

  lemma NewTokenIsAdded(size: nat, calls: seq<Call>, c: Call)
    requires size > 0 && InOrder(calls) && Inv(After(size, calls), c.time) && c.mac != ZERO_MAC
    requires forall i :: 0 <= i < |calls| ==> calls[i].mac != c.mac
    ensures Holds(FindOrAdd(After(size, calls), c.address, c.mac, c.time).1, Entry(c.time, c.mac, c.address))
  {
    hide After;
    var es := After(size, calls);
    var k := LastMatch(es, c.mac, size);
    if k != -1 {
      EntriesComeFromCalls(size, calls, k);
      assert false;
    }
    assert FindOrAdd(es, c.address, c.mac, c.time).1[Oldest(es, size)] == Entry(c.time, c.mac, c.address);
  }

  /** A token first used by call k stays in the table while fewer than size - 1 other tokens have
      been stamped since. */
  lemma {:induction false} TokenStays(size: nat, calls: seq<Call>, k: nat)
    requires size > 0 && InOrder(calls) && k < |calls| && calls[k].mac != ZERO_MAC
    requires forall i :: 0 <= i < k ==> calls[i].mac != calls[k].mac
    requires k + 1 < |calls| ==>
               |OtherTags(calls[..|calls| - 1], calls[k].mac, calls[k].time)| < size - 1
    ensures Holds(After(size, calls), Entry(calls[k].time, calls[k].mac, calls[k].address))
    decreases |calls|
  {
    hide OtherTags, FindOrAdd;
    var last := |calls| - 1;
    var c := calls[last];
    var before := After(size, calls[..last]);
    var e := Entry(calls[k].time, calls[k].mac, calls[k].address);
    AfterInv(size, calls[..last], c.time);
    if k == last {
      NewTokenIsAdded(size, calls[..last], c);
    } else {
      OtherTagsGrow(calls[..last], e.mac, e.time);
      assert calls[..last][k] == calls[k];
      TokenStays(size, calls[..last], k);
      StaysOneCallMore(size, calls[..last], e, c);
    }
  }

  lemma StaysOneCallMore(size: nat, calls: seq<Call>, e: Entry, c: Call)
    requires size > 0 && InOrder(calls) && Inv(After(size, calls), c.time)
    requires Holds(After(size, calls), e) && Real(e)
    requires |OtherTags(calls, e.mac, e.time)| < size - 1
    ensures Holds(FindOrAdd(After(size, calls), c.address, c.mac, c.time).1, e)
  {
    hide After, OtherTags;
    var es := After(size, calls);
    var after := FindOrAdd(es, c.address, c.mac, c.time).1;
    var i :| 0 <= i < size && es[i] == e;
    if after[i] != e {
      forall j: nat | j < size
        ensures Real(es[j]) && e.time <= es[j].time
      {
        EvictsOnlyWhenFull(es, i, c.address, c.mac, c.time, c.time, j);
      }
      FullTableSawTags(size, calls, e, c.time);
      assert false;
    }
    assert after[i] == e;
  }

  lemma OtherTagsGrow(calls: seq<Call>, mac: Mac, since: real)
    ensures calls != [] ==> |OtherTags(calls[..|calls| - 1], mac, since)| <= |OtherTags(calls, mac, since)|
  {
    if calls != [] {
      var fewer := calls[..|calls| - 1];
      forall m | m in OtherTags(fewer, mac, since)
        ensures m in OtherTags(calls, mac, since)
      {
        var i :| 0 <= i < |fewer| && fewer[i].time >= since && fewer[i].mac == m && m != mac;
        assert calls[i] == fewer[i];
      }
      SubsetSize(OtherTags(fewer, mac, since), OtherTags(calls, mac, since));
    }
  }

  /** One token, one address: from its first use, a token is accepted from exactly the address
      that used it first, for as long as fewer than size - 1 other tokens have been stamped since. */
  lemma OneTokenOneAddress(size: nat, calls: seq<Call>, k: nat, from: Address, time: real)
    requires size > 0 && InOrder(calls) && k < |calls| && calls[k].mac != ZERO_MAC
    requires forall i :: 0 <= i < k ==> calls[i].mac != calls[k].mac
    requires |OtherTags(calls, calls[k].mac, calls[k].time)| < size - 1
    requires calls[|calls| - 1].time <= time
    ensures FindOrAdd(After(size, calls), from, calls[k].mac, time).0
            <==> from != NoAddress && from == calls[k].address
  {
    OtherTagsGrow(calls, calls[k].mac, calls[k].time);
    TokenStays(size, calls, k);
    AfterInv(size, calls, time);
    var es := After(size, calls);
    var i :| 0 <= i < size && es[i] == Entry(calls[k].time, calls[k].mac, calls[k].address);
    BoundTag(es, i, from, time, time);
  }

  /** The history let call j through. */
  predicate LetThrough(size: nat, calls: seq<Call>, j: nat)
    requires size > 0 && j < |calls|
  {
    FindOrAdd(After(size, calls[..j]), calls[j].address, calls[j].mac, calls[j].time).0
  }

  /** Call k is the first to use its token. */
  ghost predicate FirstUse(calls: seq<Call>, k: nat)
    requires k < |calls|
  {
    forall i :: 0 <= i < k ==> calls[i].mac != calls[k].mac
  }

  /** Fewer than size - 1 other tokens were stamped between the first use of a token and call j. */
  ghost predicate Recent(size: nat, calls: seq<Call>, k: nat, j: nat)
    requires k < |calls| && j <= |calls|
  {
    k < j ==> |OtherTags(calls[..j], calls[k].mac, calls[k].time)| < size - 1
  }

  lemma RecentEarlier(size: nat, calls: seq<Call>, k: nat, i: nat, j: nat)
    requires k <= i <= j <= |calls| && k < |calls| && Recent(size, calls, k, j)
    ensures Recent(size, calls, k, i)
  {
    var mac, since := calls[k].mac, calls[k].time;
    if k < i {
      forall m | m in OtherTags(calls[..i], mac, since)
        ensures m in OtherTags(calls[..j], mac, since)
      {
        var n :| 0 <= n < i && calls[..i][n].time >= since && calls[..i][n].mac == m && m != mac;
        assert calls[..j][n] == calls[..i][n];
      }
      SubsetSize(OtherTags(calls[..i], mac, since), OtherTags(calls[..j], mac, since));
    }
  }

  lemma LetThroughOnlyFirst(size: nat, calls: seq<Call>, k: nat, j: nat)
    requires size > 0 && InOrder(calls) && k < j < |calls| && calls[k].mac == calls[j].mac != ZERO_MAC
    requires FirstUse(calls, k) && Recent(size, calls, k, j) && LetThrough(size, calls, j)
    ensures calls[j].address == calls[k].address != NoAddress
  {
    assert calls[..j][k] == calls[k];
    assert calls[..j][j - 1] == calls[j - 1];
    OneTokenOneAddress(size, calls[..j], k, calls[j].address, calls[j].time);
  }

  /** Two calls the history lets through with one token come from one address, while fewer than
      size - 1 other tokens were stamped since the token's first use. */
  lemma OneTokenOneGrant(size: nat, calls: seq<Call>, k: nat, i: nat, j: nat)
    requires size > 0 && InOrder(calls) && k <= i < j < |calls| && FirstUse(calls, k)
    requires calls[k].mac == calls[i].mac == calls[j].mac != ZERO_MAC
    requires LetThrough(size, calls, i) && LetThrough(size, calls, j) && Recent(size, calls, k, j)
    ensures calls[i].address == calls[j].address
  {
    RecentEarlier(size, calls, k, i, j);
    hide LetThrough, Recent, FirstUse, InOrder;
    LetThroughOnlyFirst(size, calls, k, j);
    if k < i {
      LetThroughOnlyFirst(size, calls, k, i);
    }
  }

  /** The bound counts from the first use and not from the last: using a token again does not renew
      its stamp.  In a table of three, m is used at 1 and again at 4 from one address, one other
      token is stamped after that, and at 6 another address may use m. */
  lemma UseDoesNotRenew(m: Mac, x: Mac, y: Mac, z: Mac, here: Address, there: Address)
    requires m != ZERO_MAC && x !in {ZERO_MAC, m} && y !in {ZERO_MAC, m, x} && z !in {ZERO_MAC, m, x, y}
    ensures var calls := [Call(here, m, 1.0)] + [Call(here, x, 2.0)] + [Call(here, y, 3.0)];
            && (FindOrAdd(After(3, calls), here, m, 4.0).0 <==> here != NoAddress)
            && FindOrAdd(After(3, calls + [Call(here, m, 4.0)] + [Call(here, z, 5.0)]), there, m, 6.0).0
  {
    var calls := [Call(here, m, 1.0)] + [Call(here, x, 2.0)] + [Call(here, y, 3.0)];
    var e2, e3, e5 := Entry(2.0, x, here), Entry(3.0, y, here), Entry(5.0, z, here);
    ThreeTokens(m, x, y, here);
    FourthToken(m, x, y, z, here);
    hide LastMatch, Oldest, After;
    var held, lost := [Entry(1.0, m, here), e2, e3], [e5, e2, e3];
    var first := LastMatch(held, m, 3);
    assert held[0].mac == m && held[1].mac != m && held[2].mac != m;
    assert first == 0;
    var second := LastMatch(lost, m, 3);
    assert lost[0].mac != m && lost[1].mac != m && lost[2].mac != m;
    assert second == -1;
  }

  lemma FourthToken(m: Mac, x: Mac, y: Mac, z: Mac, here: Address)
    requires m != ZERO_MAC && x !in {ZERO_MAC, m} && y !in {ZERO_MAC, m, x} && z !in {ZERO_MAC, m, x, y}
    ensures After(3, [Call(here, m, 1.0)] + [Call(here, x, 2.0)] + [Call(here, y, 3.0)] + [Call(here, m, 4.0)]
                     + [Call(here, z, 5.0)])
         == [Entry(5.0, z, here), Entry(2.0, x, here), Entry(3.0, y, here)]
  {
    var e1, e2, e3, e5 := Entry(1.0, m, here), Entry(2.0, x, here), Entry(3.0, y, here), Entry(5.0, z, here);
    var calls := [Call(here, m, 1.0)] + [Call(here, x, 2.0)] + [Call(here, y, 3.0)];
    ThreeTokens(m, x, y, here);
    KnownTokenStays(3, calls, Call(here, m, 4.0), [e1, e2, e3], 0);
    hide After, FindOrAdd;
    NewTokenGoesTo(3, calls + [Call(here, m, 4.0)], Call(here, z, 5.0), [e1, e2, e3], 0);
    ReplacesFirst(e1, e2, e3, e5);
  }

  lemma ReplacesFirst(e1: Entry, e2: Entry, e3: Entry, e: Entry)
    ensures [e1, e2, e3][0 := e] == [e, e2, e3]
  {
  }

  lemma ThreeTokens(m: Mac, x: Mac, y: Mac, here: Address)
    requires m != ZERO_MAC && x !in {ZERO_MAC, m} && y !in {ZERO_MAC, m, x}
    ensures After(3, [Call(here, m, 1.0)] + [Call(here, x, 2.0)] + [Call(here, y, 3.0)])
         == [Entry(1.0, m, here), Entry(2.0, x, here), Entry(3.0, y, here)]
  {
    var e1, e2 := Entry(1.0, m, here), Entry(2.0, x, here);
    assert After(3, []) == [Blank(), Blank(), Blank()];
    assert [] + [Call(here, m, 1.0)] == [Call(here, m, 1.0)];
    NewTokenGoesTo(3, [], Call(here, m, 1.0), [Blank(), Blank(), Blank()], 0);
    assert [Blank(), Blank(), Blank()][0 := e1] == [e1, Blank(), Blank()];
    NewTokenGoesTo(3, [Call(here, m, 1.0)], Call(here, x, 2.0), [e1, Blank(), Blank()], 1);
    assert [e1, Blank(), Blank()][1 := e2] == [e1, e2, Blank()];
    NewTokenGoesTo(3, [Call(here, m, 1.0)] + [Call(here, x, 2.0)], Call(here, y, 3.0), [e1, e2, Blank()], 2);
  }

  /** A token the table does not hold takes the place of the oldest entry. */
  lemma NewTokenGoesTo(size: nat, calls: seq<Call>, c: Call, es: seq<Entry>, o: nat)
    requires o < size == |es| && After(size, calls) == es
    requires forall i :: 0 <= i < size ==> es[i].mac != c.mac && es[o].time <= es[i].time
    requires forall i :: 0 <= i < o ==> es[o].time < es[i].time
    ensures After(size, calls + [c]) == es[o := Entry(c.time, c.mac, c.address)]
  {
    assert (calls + [c])[..|calls|] == calls;
    assert LastMatch(es, c.mac, size) == -1;
    assert Oldest(es, size) == o;
  }

  lemma KnownTokenStays(size: nat, calls: seq<Call>, c: Call, es: seq<Entry>, i: nat)
    requires i < size == |es| && After(size, calls) == es && es[i].mac == c.mac
    requires forall j :: i < j < size ==> es[j].mac != c.mac
    ensures After(size, calls + [c]) == es
    ensures FindOrAdd(es, c.address, c.mac, c.time).0 <==> SameAddress(es[i].address, c.address)
  {
    assert (calls + [c])[..|calls|] == calls;
    assert LastMatch(es, c.mac, size) == i;
  }

  /** The table is not first-in first-out when stamps are equal: once every entry carries the
      current time, each new token takes the place of the previous new token. */
  lemma EqualStampsForgetTheNewest(es: seq<Entry>, time: real, a: Address, m: Mac, b: Address, n: Mac, from: Address)
    requires Inv(es, time) && (forall i :: 0 <= i < |es| ==> es[i].time == time)
    requires time > -1000.0 && m != n
    requires forall i :: 0 <= i < |es| ==> es[i].mac != m && es[i].mac != n
    ensures var once := FindOrAdd(es, a, m, time).1;
            var twice := FindOrAdd(once, b, n, time).1;
            && twice == es[0 := Entry(time, n, b)]
            && FindOrAdd(twice, from, m, time).0
  {
    var once := FindOrAdd(es, a, m, time).1;
    assert es[0].time == time;
    assert Oldest(es, |es|) == 0;
    assert once == es[0 := Entry(time, m, a)];
    assert once[0].time == time;
    assert Oldest(once, |once|) == 0;
  }
}
