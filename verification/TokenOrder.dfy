/** The order in which the token history forgets: first in, first out exactly while the entry it looks
    at first is stamped later than the oldest one. */
module TokenOrder {
  import opened Types
  import opened TokenHistory
  import Q = Queue

  function EntryOf(c: Call): Entry {
    Entry(c.time, c.mac, c.address)
  }

  /** A queue of calls knows a tag; while it has room left, the tag of blank entries counts as known. */
  predicate Known(size: nat, q: seq<Call>, mac: Mac) {
    (exists k :: 0 <= k < |q| && q[k].mac == mac) || (mac == ZERO_MAC && |q| < size)
  }

  function Last(calls: seq<Call>): Call
    requires calls != []
  {
    calls[|calls| - 1]
  }

  function Before(calls: seq<Call>): seq<Call>
    requires calls != []
  {
    calls[..|calls| - 1]
  }

  /** The reference: a first-in first-out queue of the last `size` distinct tokens. */
  function Fifo(size: nat, calls: seq<Call>): seq<Call> {
    if calls == [] then []
    else
      var q := Fifo(size, Before(calls));
      if Known(size, q, Last(calls).mac) then q
      else if |q| < size then q + [Last(calls)]
      else (q + [Last(calls)])[1..]
  }

  /** Every call that brought a token the queue did not know. */
  function Added(size: nat, calls: seq<Call>): seq<Call> {
    if calls == [] then []
    else
      var before := Added(size, Before(calls));
      if Known(size, Fifo(size, Before(calls)), Last(calls).mac) then before else before + [Last(calls)]
  }

  /** The queue holds the last `size` tokens that were added. */
  lemma {:induction false} FifoIsTheLastAdded(size: nat, calls: seq<Call>)
    requires size > 0
    ensures |Fifo(size, calls)| == if |Added(size, calls)| < size then |Added(size, calls)| else size
    ensures Fifo(size, calls) == Added(size, calls)[|Added(size, calls)| - |Fifo(size, calls)|..]
  {
    if calls != [] {
      FifoIsTheLastAdded(size, Before(calls));
    }
  }

  /** New tokens are stamped in order of time. */
  ghost predicate InTimeOrder(size: nat, calls: seq<Call>) {
    calls == []
    || (&& InTimeOrder(size, Before(calls)) && Last(calls).time > -1000.0
        && var q := Fifo(size, Before(calls));
        (Known(size, q, Last(calls).mac) || q == [] || Last(q).time <= Last(calls).time))
  }

  /** Calls in order of time stamp their new tokens in order. */
  lemma {:induction false} CallsInOrder(size: nat, calls: seq<Call>)
    requires InOrder(calls)
    ensures InTimeOrder(size, calls) && (forall c :: c in Fifo(size, calls) ==> c in calls)
  {
    if calls != [] {
      CallsInOrder(size, Before(calls));
      var q := Fifo(size, Before(calls));
      assert forall c :: c in Before(calls) ==> c in calls && c.time <= Last(calls).time;
      assert forall c :: c in (q + [Last(calls)])[1..] ==> c in q || c == Last(calls);
      assert Last(calls) in calls && (q != [] ==> Last(q) in q);
    }
  }

  /** A new token at a full table. */
  predicate Evicts(size: nat, calls: seq<Call>)
    requires calls != []
  {
    var q := Fifo(size, Before(calls));
    !Known(size, q, Last(calls).mac) && |q| == size
  }

  /** Whenever a new token meets a full table whose oldest entry is not the first, the first one is
      stamped later than the oldest. */
  ghost predicate Fits(size: nat, calls: seq<Call>)
    requires size > 0
  {
    calls == []
    || (&& Fits(size, Before(calls))
        && (Evicts(size, calls) && Start(size, Before(calls)) != 0 ==>
              var es := After(size, Before(calls));
              es[0].time > es[Start(size, Before(calls))].time))
  }

  /** Where the oldest token of the queue sits in the table. */
  function Start(size: nat, calls: seq<Call>): (k: nat)
    requires size > 0
    ensures k < size
  {
    if calls == [] then 0
    else
      var q := Fifo(size, Before(calls));
      var k := Start(size, Before(calls));
      if Known(size, q, Last(calls).mac) || |q| < size then k else Q.Wrap(size, k, 1)
  }

  /** The table is the queue, laid out as a ring, with blank entries for the rest. */
  ghost predicate Rotated(size: nat, es: seq<Entry>, q: seq<Call>, start: nat) {
    && start < size == |es| && |q| <= size && (|q| < size ==> start == 0)
    && (forall j :: 0 <= j < |q| ==> es[Q.Wrap(size, start, j)] == EntryOf(q[j]))
    && (forall j :: |q| <= j < size ==> es[Q.Wrap(size, start, j)] == Blank())
  }

  /** The queue is in order of time, and knows each tag once. */
  ghost predicate Lined(q: seq<Call>) {
    && (forall j :: 0 <= j < |q| ==> q[j].time > -1000.0)
    && (forall j, k :: 0 <= j < k < |q| ==> q[j].time <= q[k].time && q[j].mac != q[k].mac)
  }

  function Unwrap(size: nat, start: nat, i: nat): (j: nat)
    requires start < size && i < size
    ensures j < size && Q.Wrap(size, start, j) == i
  {
    if i >= start then i - start else i + size - start
  }

  lemma MatchAt(es: seq<Entry>, mac: Mac, i: nat)
    requires i < |es| && es[i].mac == mac
    ensures LastMatch(es, mac, |es|) >= 0
  {
  }

  lemma KnownMatches(size: nat, es: seq<Entry>, q: seq<Call>, start: nat, mac: Mac)
    requires Rotated(size, es, q, start)
    ensures LastMatch(es, mac, size) >= 0 <==> Known(size, q, mac)
  {
    var m := LastMatch(es, mac, size);
    if m >= 0 {
      assert es[Q.Wrap(size, start, Unwrap(size, start, m))].mac == mac;
    }
    if mac == ZERO_MAC && |q| < size {
      MatchAt(es, mac, Q.Wrap(size, start, |q|));
    } else if Known(size, q, mac) {
      var k :| 0 <= k < |q| && q[k].mac == mac;
      MatchAt(es, mac, Q.Wrap(size, start, k));
    }
  }

  /** With room left the entry to replace is the first blank one. */
  lemma FirstBlank(size: nat, es: seq<Entry>, q: seq<Call>)
    requires Rotated(size, es, q, 0) && Lined(q) && |q| < size
    ensures Oldest(es, size) == |q|
  {
    assert forall j :: 0 <= j < size ==> Q.Wrap(size, 0, j) == j;
    forall j | 0 <= j < size
      ensures es[j] == if j < |q| then EntryOf(q[j]) else Blank()
    {
      assert es[Q.Wrap(size, 0, j)] == if j < |q| then EntryOf(q[j]) else Blank();
    }
    hide Q.Wrap;
    var o := Oldest(es, size);
    assert es[o].time <= es[|q|].time == Blank().time;
  }

  /** In a full table it is the oldest token's, or the first entry when that is no later. */
  lemma FirstOrOldest(size: nat, es: seq<Entry>, q: seq<Call>, start: nat)
    requires Rotated(size, es, q, start) && Lined(q) && |q| == size
    ensures es[start] == EntryOf(q[0]) && es[start].time <= es[0].time
    ensures Oldest(es, size) == if es[start].time == es[0].time then 0 else start
  {
    assert es[Q.Wrap(size, start, 0)] == EntryOf(q[0]);
    var o := Oldest(es, size);
    var j := Unwrap(size, start, o);
    assert es[o] == EntryOf(q[j]);
    assert es[0] == EntryOf(q[Unwrap(size, start, 0)]);
  }

  lemma AddToRoom(size: nat, es: seq<Entry>, q: seq<Call>, c: Call)
    requires Rotated(size, es, q, 0) && |q| < size
    ensures Rotated(size, es[|q| := EntryOf(c)], q + [c], 0)
  {
    assert forall j :: 0 <= j < size ==> Q.Wrap(size, 0, j) == j;
    hide Q.Wrap;
  }

  lemma AddToFull(size: nat, es: seq<Entry>, q: seq<Call>, start: nat, c: Call)
    requires Rotated(size, es, q, start) && |q| == size > 0
    ensures Rotated(size, es[start := EntryOf(c)], (q + [c])[1..], Q.Wrap(size, start, 1))
  {
    var r := es[start := EntryOf(c)];
    var q' := (q + [c])[1..];
    var s' := Q.Wrap(size, start, 1);
    forall j | 0 <= j < size
      ensures r[Q.Wrap(size, s', j)] == EntryOf(q'[j])
    {
      NextTurn(size, start, j);
      assert j < size - 1 ==> es[Q.Wrap(size, start, j + 1)] == EntryOf(q[j + 1]);
    }
    assert forall j :: 0 <= j < |q'| ==> q'[j] == if j < size - 1 then q[j + 1] else c;
    hide Q.Wrap;
  }

  lemma NextTurn(size: nat, start: nat, j: nat)
    requires start < size && j < size
    ensures Q.Wrap(size, Q.Wrap(size, start, 1), j)
         == if j < size - 1 then Q.Wrap(size, start, j + 1) else start
    ensures j < size - 1 ==> Q.Wrap(size, start, j + 1) != start
  {
  }

  lemma LineUp(size: nat, q: seq<Call>, c: Call)
    requires Lined(q) && !Known(size, q, c.mac) && c.time > -1000.0 && (q == [] || Last(q).time <= c.time)
    ensures Lined(q + [c]) && Lined((q + [c])[1..])
  {
    var all := q + [c];
    assert forall j :: 0 <= j < |q| ==> q[j].time <= c.time && q[j].mac != c.mac;
    assert Lined(all);
    assert forall j :: 0 <= j < |q| ==> all[1..][j] == all[j + 1];
  }

  lemma {:induction false} FifoIsLined(size: nat, calls: seq<Call>)
    requires size > 0 && InTimeOrder(size, calls)
    ensures Lined(Fifo(size, calls)) && |Fifo(size, calls)| <= size
  {
    if calls != [] {
      FifoIsLined(size, Before(calls));
      hide Lined;
      var q := Fifo(size, Before(calls));
      if !Known(size, q, Last(calls).mac) {
        LineUp(size, q, Last(calls));
      }
    }
  }

  /** The table after the calls is the queue. */
  ghost predicate IsRing(size: nat, calls: seq<Call>)
    requires size > 0
  {
    Rotated(size, After(size, calls), Fifo(size, calls), Start(size, calls))
  }

  /** One more call keeps the table a ring exactly when the first entry makes way for the oldest. */
  lemma RingStep(size: nat, calls: seq<Call>)
    requires size > 0 && calls != [] && InTimeOrder(size, calls) && IsRing(size, Before(calls))
    ensures var es := After(size, Before(calls));
            var start := Start(size, Before(calls));
            if Evicts(size, calls) && start != 0 && es[0].time <= es[start].time
            then StillHolds(size, calls)
            else IsRing(size, calls)
  {
    var es := After(size, Before(calls));
    var q := Fifo(size, Before(calls));
    var start := Start(size, Before(calls));
    var c := Last(calls);
    FifoIsLined(size, Before(calls));
    KnownMatches(size, es, q, start, c.mac);
    if !Known(size, q, c.mac) {
      if |q| < size {
        FirstBlank(size, es, q);
        AddToRoom(size, es, q, c);
      } else {
        FirstOrOldest(size, es, q, start);
        if start != 0 && es[0].time <= es[start].time {
          Forgets(size, calls);
        } else {
          AddToFull(size, es, q, start, c);
        }
      }
    }
  }

  /** The queue has forgotten its oldest token and the table has not. */
  ghost predicate StillHolds(size: nat, calls: seq<Call>)
    requires size > 0 && calls != []
  {
    var q := Fifo(size, Before(calls));
    q != [] && Holds(After(size, calls), EntryOf(q[0])) && Real(EntryOf(q[0])) && !EntryIn(Fifo(size, calls), EntryOf(q[0]))
  }

  lemma Forgets(size: nat, calls: seq<Call>)
    requires size > 0 && calls != [] && InTimeOrder(size, calls) && IsRing(size, Before(calls)) && Evicts(size, calls)
    requires Start(size, Before(calls)) != 0
    requires var es := After(size, Before(calls)); es[0].time <= es[Start(size, Before(calls))].time
    ensures StillHolds(size, calls)
  {
    var es := After(size, Before(calls));
    var q := Fifo(size, Before(calls));
    var start := Start(size, Before(calls));
    var c := Last(calls);
    FifoIsLined(size, Before(calls));
    KnownMatches(size, es, q, start, c.mac);
    FirstOrOldest(size, es, q, start);
    Forgotten(size, q, c);
    assert After(size, calls) == es[0 := EntryOf(c)];
    assert After(size, calls)[start] == EntryOf(q[0]);
    assert Fifo(size, calls) == (q + [c])[1..];
    hide After, Fifo, Known, Lined, Rotated, EntryIn;
  }

  lemma Forgotten(size: nat, q: seq<Call>, c: Call)
    requires |q| == size > 0 && Lined(q) && !Known(size, q, c.mac)
    ensures !EntryIn((q + [c])[1..], EntryOf(q[0])) && Real(EntryOf(q[0]))
  {
    var next := (q + [c])[1..];
    assert q[0].mac != c.mac;
    assert forall j :: 0 <= j < size ==> next[j] == if j < size - 1 then q[j + 1] else c;
    assert forall j :: 0 <= j < size ==> next[j].mac != q[0].mac;
  }

  ghost predicate EntryIn(q: seq<Call>, e: Entry) {
    exists k :: 0 <= k < |q| && e == EntryOf(q[k])
  }

  lemma RingHolds(size: nat, es: seq<Entry>, q: seq<Call>, start: nat, e: Entry)
    requires Rotated(size, es, q, start) && (forall j :: 0 <= j < |q| ==> q[j].time > -1000.0)
    ensures Real(e) && Holds(es, e) <==> EntryIn(q, e)
  {
    if Real(e) && Holds(es, e) {
      var i :| 0 <= i < size && es[i] == e;
      var k := Unwrap(size, start, i);
      assert es[Q.Wrap(size, start, k)] == e;
      assert k < |q| && e == EntryOf(q[k]);
    }
    if k :| 0 <= k < |q| && e == EntryOf(q[k]) {
      assert es[Q.Wrap(size, start, k)] == e;
    }
  }

  /** The table holds the last `size` tokens added and no others. */
  ghost predicate HoldsLast(size: nat, calls: seq<Call>)
    requires size > 0
  {
    forall e: Entry :: Real(e) && Holds(After(size, calls), e) <==> EntryIn(Fifo(size, calls), e)
  }

  /** What holds of the table after every part of the run. */
  ghost predicate AllAlong(size: nat, calls: seq<Call>)
    requires size > 0
  {
    HoldsLast(size, calls) && (calls != [] ==> AllAlong(size, Before(calls)))
  }

  lemma RingHoldsLast(size: nat, calls: seq<Call>)
    requires size > 0 && InTimeOrder(size, calls) && IsRing(size, calls)
    ensures HoldsLast(size, calls)
  {
    FifoIsLined(size, calls);
    forall e: Entry
      ensures Real(e) && Holds(After(size, calls), e) <==> EntryIn(Fifo(size, calls), e)
    {
      RingHolds(size, After(size, calls), Fifo(size, calls), Start(size, calls), e);
    }
  }

  lemma StillHoldsForgotten(size: nat, calls: seq<Call>)
    requires size > 0 && calls != [] && StillHolds(size, calls)
    ensures !HoldsLast(size, calls)
  {
    hide EntryIn, Holds, Real;
  }

  /** First in, first out: for calls in order of time, the table holds after each of them exactly the
      last `size` tokens added, if and only if, whenever a new token met a full table whose oldest
      entry was not the first, the first entry was stamped later than the oldest. */
  lemma {:induction false} FirstInFirstOut(size: nat, calls: seq<Call>)
    requires size > 0 && InTimeOrder(size, calls)
    ensures AllAlong(size, calls) <==> Fits(size, calls)
    ensures Fits(size, calls) ==> IsRing(size, calls)
  {
    hide HoldsLast, StillHolds, IsRing, Evicts;
    if calls == [] {
      EmptyRing(size);
      RingHoldsLast(size, calls);
    } else {
      FirstInFirstOut(size, Before(calls));
      if Fits(size, Before(calls)) {
        RingStep(size, calls);
        if Fits(size, calls) {
          RingHoldsLast(size, calls);
        } else {
          StillHoldsForgotten(size, calls);
        }
      }
    }
  }

  lemma EmptyRing(size: nat)
    requires size > 0
    ensures IsRing(size, [])
  {
  }

  // ----- equal stamps -----

  ghost predicate Burst(calls: seq<Call>, time: real) {
    && time > -1000.0
    && (forall i :: 0 <= i < |calls| ==> calls[i].time == time && calls[i].mac != ZERO_MAC)
    && (forall i, j :: 0 <= i < j < |calls| ==> calls[i].mac != calls[j].mac)
  }

  /** Distinct tokens of one instant fill the table from its start. */
  lemma {:induction false} BurstFills(size: nat, calls: seq<Call>, time: real)
    requires |calls| <= size && size > 0 && Burst(calls, time)
    ensures forall i :: 0 <= i < size ==> After(size, calls)[i] == if i < |calls| then EntryOf(calls[i]) else Blank()
  {
    if calls != [] {
      BurstFills(size, Before(calls), time);
      var es := After(size, Before(calls));
      var n := |calls| - 1;
      assert es[n] == Blank();
      assert Oldest(es, size) == n;
      assert LastMatch(es, Last(calls).mac, size) == -1;
    }
  }

  /** The failing case: a table of two or more entries, filled by tokens of one instant, forgets the
      next token of that instant when one more arrives, so that any address may use it again; the
      older tokens, but for the first, stay bound. A first-in first-out queue keeps it. */
  lemma BurstForgetsTheNewest(size: nat, calls: seq<Call>, c: Call, d: Call, time: real, from: Address)
    requires |calls| == size >= 2 && Burst(calls + [c, d], time)
    ensures var all := calls + [c, d];
            && FindOrAdd(After(size, all), from, c.mac, time).0
            && (FindOrAdd(After(size, all), from, calls[1].mac, time).0
                <==> from != NoAddress && from == calls[1].address)
            && After(size, all) == After(size, calls)[0 := EntryOf(d)]
  {
    var all := calls + [c, d];
    assert all[..size + 1] == calls + [c] && (calls + [c])[..size] == calls && all[size] == c && all[size + 1] == d;
    assert forall i :: 0 <= i < size ==> all[i] == calls[i];
    BurstFills(size, calls, time);
    var es := After(size, calls);
    BurstInv(es, calls, time);
    EqualStampsForgetTheNewest(es, time, c.address, c.mac, d.address, d.mac, from);
    assert After(size, calls + [c]) == FindOrAdd(es, c.address, c.mac, time).1;
    assert After(size, all) == FindOrAdd(After(size, calls + [c]), d.address, d.mac, time).1;
    var twice := es[0 := EntryOf(d)];
    assert twice[1] == EntryOf(calls[1]);
    FindOrAddInv(es, c.address, c.mac, time, time);
    FindOrAddInv(After(size, calls + [c]), d.address, d.mac, time, time);
    BoundTag(twice, 1, from, time, time);
  }

  lemma BurstInv(es: seq<Entry>, calls: seq<Call>, time: real)
    requires |es| == |calls| > 0 && Burst(calls, time) && (forall i :: 0 <= i < |es| ==> es[i] == EntryOf(calls[i]))
    ensures Inv(es, time)
  {
  }

  lemma BurstIsNew(size: nat, q: seq<Call>, all: seq<Call>, k: nat, time: real)
    requires k < |all| && Burst(all, time) && (forall c :: c in q ==> c in all[..k])
    ensures !Known(size, q, all[k].mac)
  {
    forall j | 0 <= j < |q|
      ensures q[j].mac != all[k].mac
    {
      assert q[j] in all[..k];
    }
  }

  lemma {:induction false} BurstLinesUp(size: nat, calls: seq<Call>, time: real)
    requires |calls| <= size && size > 0 && Burst(calls, time)
    ensures Fifo(size, calls) == calls && Start(size, calls) == 0 && Fits(size, calls)
  {
    if calls != [] {
      BurstBefore(calls, time);
      BurstLinesUp(size, Before(calls), time);
      BurstIsNew(size, Before(calls), calls, |calls| - 1, time);
      assert calls == Before(calls) + [Last(calls)];
      hide After, Known, Burst;
    }
  }

  lemma BurstBefore(calls: seq<Call>, time: real)
    requires calls != [] && Burst(calls, time)
    ensures Burst(Before(calls), time)
  {
  }

  /** Tokens of one instant first break the order with the second one that meets a full table. */
  lemma BurstBreaksOrder(size: nat, calls: seq<Call>, c: Call, d: Call, time: real)
    requires |calls| == size >= 2 && Burst(calls + [c, d], time)
    ensures Fits(size, calls + [c]) && !Fits(size, calls + [c, d])
  {
    var one, two := calls + [c], calls + [c, d];
    assert Before(two) == one && Before(one) == calls && Last(two) == d && Last(one) == c;
    BurstBefore(two, time);
    BurstBefore(one, time);
    BurstLinesUp(size, calls, time);
    BurstIsNew(size, calls, one, size, time);
    var q := (calls + [c])[1..];
    assert forall x :: x in q ==> x in one && two[..size + 1] == one;
    BurstIsNew(size, q, two, size + 1, time);
    BurstStamps(size, calls, c, time);
    hide After, Burst, Known;
    assert Fifo(size, one) == q && Start(size, one) == 1;
    assert Evicts(size, two);
  }

  lemma BurstStamps(size: nat, calls: seq<Call>, c: Call, time: real)
    requires |calls| == size >= 2 && Burst(calls + [c], time)
    ensures After(size, calls + [c])[0].time == After(size, calls + [c])[1].time == time
  {
    var all := calls + [c];
    assert all[..size] == calls && all[size] == c && forall i :: 0 <= i < size ==> all[i] == calls[i];
    BurstFills(size, calls, time);
    var es := After(size, calls);
    assert es[0] == EntryOf(calls[0]) && es[1] == EntryOf(calls[1]);
    assert Oldest(es, size) == 0 && LastMatch(es, c.mac, size) == -1;
  }
}
