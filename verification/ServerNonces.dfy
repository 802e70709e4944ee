/** When two packets of a server carry the same key and sequence number: in a run without a stop,
    exactly when two clients were taken in under one key. */
module ServerNonces {
  import opened Types
  import opened Crypto
  import opened Tokens
  import opened Packets
  import opened Queue
  import opened Traces
  import opened Memory
  import opened Inbox
  import opened Server
  import opened ServerTables
  import M = Mappings
  import H = TokenHistory
  import R = Replay

  // ----- what is asked of the run, read off the trace -----

  /** How many packets were sent, to the network or over loopback. */
  function Sends(t: Trace): nat {
    match t
    case Nothing => 0
    case Then(past, e) => Sends(past) + if e.Sent? then 1 else 0
  }

  predicate Good(t: Trace) {
    !EverStopped(t) && Sends(t) < TWO63
  }

  // ----- the invariant -----

  /** No packet numbered from q up to 2^63 was sealed under the key. */
  ghost predicate ClearFrom(sent: seq<Sealing>, key: Key, q: nat) {
    forall x :: x in sent && x.key == key && x.sequence < TWO63 ==> x.sequence < q
  }

  /** The mapping table entry belongs to a client on the network. */
  ghost predicate Held(s: ServerState, k: nat) {
    exists i :: 0 <= i < |s.slots| && Remote(s.slots[i]) && s.slots[i].encryptionIndex == k
  }

  predicate Addressed(m: M.Manager, k: nat)
    requires k < |m.entries|
  {
    m.entries[k].address != NoAddress
  }

  /** The mapping a client holds has the keys the client was taken in under. */
  ghost predicate Locked(s: ServerState) {
    forall i :: 0 <= i < |s.slots| && Remote(s.slots[i]) ==>
      && 0 <= s.slots[i].encryptionIndex < |s.mappings.entries|
      && Holder(s.trace, i) == Some(KeysOf(s.mappings.entries[s.slots[i].encryptionIndex]))
  }

  /** Every client taken in was sent packet number 0 under its key, so two under one key repeat it. */
  ghost predicate Paid(t: Trace) {
    && (forall k :: k in SeatKeys(t) ==> Sealing(k, 0) in Sealings(t))
    && (!KeysDiffer(SeatKeys(t)) ==> !AllDistinct(Sealings(t)))
  }

  /** What was sealed, and what the global counter still promises. */
  ghost predicate Counted(s: ServerState) {
    var sent := Sealings(s.trace);
    && AllDistinct(sent)
    && TWO63 <= s.globalSequence <= TWO63 + Sends(s.trace)
    && (forall x :: x in sent && x.sequence >= TWO63 ==> x.sequence < s.globalSequence)
    && (forall x :: x in sent && x.sequence < TWO63 ==> x.key in SeatKeys(s.trace))
  }

  /** A client's counter is ahead of everything sealed under its key. */
  ghost predicate Ahead(s: ServerState) {
    forall i :: 0 <= i < |s.slots| && Remote(s.slots[i]) && 0 <= s.slots[i].encryptionIndex < |s.mappings.entries| ==>
      && s.slots[i].sequence <= Sends(s.trace)
      && ClearFrom(Sealings(s.trace), s.mappings.entries[s.slots[i].encryptionIndex].sendKey, s.slots[i].sequence)
  }

  ghost predicate Core(s: ServerState) {
    && Locked(s)
    && (Good(s.trace) && KeysDiffer(SeatKeys(s.trace)) ==> Counted(s) && Ahead(s))
  }

  ghost predicate Nonces(s: ServerState) {
    Core(s) && Paid(s.trace)
  }

  /** Two clients have different keys. */
  lemma ClientsKeysDiffer(s: ServerState, i: nat, j: nat)
    requires Locked(s) && KeysDiffer(SeatKeys(s.trace)) && i < |s.slots| && j < |s.slots| && i != j
    requires Remote(s.slots[i]) && Remote(s.slots[j])
    ensures s.mappings.entries[s.slots[i].encryptionIndex].sendKey != s.mappings.entries[s.slots[j].encryptionIndex].sendKey
  {
    HoldersDiffer(s.trace, i, j);
    hide SeatKeys, Holder, KeysDiffer;
  }

  // ----- steps that send nothing -----

  /** What can be read off a trace here. */
  ghost predicate SameTrace(t: Trace, u: Trace) {
    && Sealings(u) == Sealings(t) && SeatKeys(u) == SeatKeys(t) && Sends(u) == Sends(t) && (Good(u) ==> Good(t))
    && (forall i: int :: Holder(u, i) == Holder(t, i))
  }

  /** Nothing that matters here changes. */
  ghost predicate Still(s: ServerState, r: ServerState) {
    && SameTrace(s.trace, r.trace) && r.globalSequence == s.globalSequence
    && |r.mappings.entries| == |s.mappings.entries|
    && (forall k :: 0 <= k < |s.mappings.entries| ==> KeysOf(r.mappings.entries[k]) == KeysOf(s.mappings.entries[k]))
    && |r.slots| == |s.slots|
    && (forall i :: 0 <= i < |s.slots| && Remote(r.slots[i]) ==>
          && Remote(s.slots[i]) && r.slots[i].encryptionIndex == s.slots[i].encryptionIndex
          && r.slots[i].sequence == s.slots[i].sequence)
  }

  lemma StillCore(s: ServerState, r: ServerState)
    requires Core(s) && Still(s, r)
    ensures Core(r)
  {
    hide Good, Sealings, SeatKeys, Sends, AllDistinct, Holder, KeysDiffer, ClearFrom;
    assert Locked(r);
    if Good(r.trace) && KeysDiffer(SeatKeys(r.trace)) {
      assert Counted(r);
      assert Ahead(r);
    }
  }

  lemma StillNonces(s: ServerState, r: ServerState)
    requires Nonces(s) && Still(s, r)
    ensures Nonces(r)
  {
    StillCore(s, r);
    hide Core, Sealings, SeatKeys, Sends, Holder, AllDistinct, KeysDiffer;
  }

  /** An effect that neither sends nor takes anyone in nor stops. */
  predicate Quiet(e: Effect) {
    !e.Sent? && !e.Accepted? && !e.Stopped?
  }

  lemma QuietEffect(t: Trace, e: Effect)
    requires Quiet(e)
    ensures SameTrace(t, Then(t, e))
  {
  }

  lemma SameTwice(t: Trace, u: Trace, v: Trace)
    requires SameTrace(t, u) && SameTrace(u, v)
    ensures SameTrace(t, v)
  {
    hide Sealings, SeatKeys, Sends, Good, Holder;
  }

  lemma {:induction false} PopAllQuiet(b: Inbox, slot: int)
    ensures SameTrace(b.trace, PopAll(b, slot).trace)
    decreases b.queue.num
  {
    PopContents(b.queue);
    hide SameTrace;
    var (item, rest) := Pop(b.queue);
    if item.Some? {
      var e := Discarded(slot, item.value);
      QuietEffect(b.trace, e);
      PopAllQuiet(Inbox(rest, Free(b.memory, item.value.id), Then(b.trace, e)), slot);
      SameTwice(b.trace, Then(b.trace, e), PopAll(b, slot).trace);
    } else {
      assert SameTrace(b.trace, b.trace) by {
        SameItself(b.trace);
      }
    }
  }

  lemma SameItself(t: Trace)
    ensures SameTrace(t, t)
  {
  }

  // ----- sending -----

  /** A packet sent may repeat something, but takes nobody in. */
  lemma SentPaid(t: Trace, e: Effect)
    requires Paid(t) && e.Sent?
    ensures Paid(Then(t, e))
  {
    var u := Then(t, e);
    assert SeatKeys(u) == SeatKeys(t) && Sealings(t) <= Sealings(u);
    hide SeatKeys, Sealings, KeysDiffer;
  }

  /** What a packet sent adds. */
  lemma SentEffect(t: Trace, e: Effect)
    requires e.Sent?
    ensures var u := Then(t, e);
            && Sealings(u) == (if Seals(e) then Sealings(t) + [Sealing(e.key, e.sequence)] else Sealings(t))
            && SeatKeys(u) == SeatKeys(t) && Sends(u) == Sends(t) + 1 && (Good(u) ==> Good(t))
            && (forall i: int :: Holder(u, i) == Holder(t, i))
  {
  }

  lemma GlobalNonces(s: ServerState, to: Address, p: Packet, key: Key)
    requires Nonces(s)
    ensures Nonces(SendGlobal(s, to, p, key))
  {
    var r := SendGlobal(s, to, p, key);
    SentEffect(s.trace, r.trace.last);
    SentPaid(s.trace, r.trace.last);
    hide Paid, Sealings, SeatKeys, Sends, Holder, AllDistinct, KeysDiffer;
    if Good(r.trace) && KeysDiffer(SeatKeys(r.trace)) {
      var sent := Sealings(s.trace);
      assert Sends(r.trace) < TWO63 && Counted(s) && Ahead(s);
      NewSealing(sent, Sealing(key, s.globalSequence));
      hide Good;
      assert forall q: nat, k: Key :: ClearFrom(sent, k, q) ==> ClearFrom(Sealings(r.trace), k, q);
      assert Counted(r);
      assert Ahead(r);
    }
  }

  /** What the server's tables say of the entries its clients hold. */
  ghost predicate Wired(s: ServerState) {
    && (forall i :: 0 <= i < |s.slots| && Remote(s.slots[i]) ==>
          && 0 <= s.slots[i].encryptionIndex < |s.mappings.entries|
          && Addressed(s.mappings, s.slots[i].encryptionIndex)
          && s.mappings.entries[s.slots[i].encryptionIndex].address == s.slots[i].address)
    && (forall i, j :: 0 <= i < j < |s.slots| && Remote(s.slots[i]) && Remote(s.slots[j]) ==>
          s.slots[i].encryptionIndex != s.slots[j].encryptionIndex)
  }

  lemma TablesWired(s: ServerState)
    requires Tables(s)
    ensures Wired(s)
  {
    forall i | 0 <= i < |s.slots| && Remote(s.slots[i])
      ensures Keyed(s.slots[i], s.mappings, s.time)
    {
    }
    forall i, j | 0 <= i < j < |s.slots| && Remote(s.slots[i]) && Remote(s.slots[j])
      ensures s.slots[i].encryptionIndex != s.slots[j].encryptionIndex
    {
      IndicesDistinct(s, i, j);
    }
    hide Tables, M.Expired;
  }

  /** A sealed packet of slot i, in terms of what it changes. */
  lemma SlotSealed(s: ServerState, r: ServerState, i: nat, e: nat, x: Sealing)
    requires Core(s) && i < |s.slots| && e < |s.mappings.entries|
    requires Remote(s.slots[i]) && s.slots[i].encryptionIndex == e
    requires x == Sealing(s.mappings.entries[e].sendKey, s.slots[i].sequence)
    requires Sealings(r.trace) == Sealings(s.trace) + [x] && SeatKeys(r.trace) == SeatKeys(s.trace)
    requires Sends(r.trace) == Sends(s.trace) + 1 && (Good(r.trace) ==> Good(s.trace)) && r.globalSequence == s.globalSequence
    requires forall j: int :: Holder(r.trace, j) == Holder(s.trace, j)
    requires |r.mappings.entries| == |s.mappings.entries|
    requires forall k :: 0 <= k < |s.mappings.entries| ==>
               KeysOf(r.mappings.entries[k]) == KeysOf(s.mappings.entries[k])
    requires |r.slots| == |s.slots|
    requires forall j :: 0 <= j < |s.slots| && j != i ==> r.slots[j] == s.slots[j]
    requires Remote(r.slots[i]) && r.slots[i].encryptionIndex == e
    requires s.slots[i].sequence < TWO63 ==> r.slots[i].sequence == s.slots[i].sequence + 1
    ensures Core(r)
  {
    hide Sealings, SeatKeys, Sends, Holder, AllDistinct, KeysDiffer;
    assert Locked(r);
    if Good(r.trace) && KeysDiffer(SeatKeys(r.trace)) {
      var sent := Sealings(s.trace);
      assert s.slots[i].sequence <= Sends(s.trace) < TWO63;
      HolderWasSeated(s.trace, i);
      assert x.key in SeatKeys(s.trace);
      NewSealing(sent, x);
      hide Good;
      assert Counted(r);
      forall j | 0 <= j < |r.slots| && Remote(r.slots[j])
        ensures r.slots[j].sequence <= Sends(r.trace)
        ensures ClearFrom(Sealings(r.trace), r.mappings.entries[r.slots[j].encryptionIndex].sendKey, r.slots[j].sequence)
      {
        if j != i {
          ClientsKeysDiffer(s, i, j);
        }
      }
    }
  }

  /** A sealed packet to the client of slot i. */
  lemma SendCore(s: ServerState, i: nat, p: Packet)
    requires Tables(s) && Core(s) && i < |s.slots| && Remote(s.slots[i]) && !p.Request?
    ensures Core(SendClient(s, i, p)) && SendClient(s, i, p).trace.Then? && SendClient(s, i, p).trace.past == s.trace
    ensures SendClient(s, i, p).trace.last.Sent?
  {
    var r := SendClient(s, i, p);
    SendMappings(s, i, p);
    SendSlots(s, i, p);
    SentEffect(s.trace, r.trace.last);
    var e := s.slots[i].encryptionIndex;
    hide Tables, SendClient, Good, Sealings, SeatKeys, Sends, Holder, Core;
    SlotSealed(s, r, i, e, Sealing(s.mappings.entries[e].sendKey, s.slots[i].sequence));
  }

  lemma SendNonces(s: ServerState, i: nat, p: Packet)
    requires Tables(s) && Nonces(s) && i < |s.slots| && Remote(s.slots[i]) && !p.Request?
    ensures Nonces(SendClient(s, i, p))
  {
    hide Tables, SendClient, Core, Paid;
    SendCore(s, i, p);
    SentPaid(s.trace, SendClient(s, i, p).trace.last);
  }

  lemma SendSlots(s: ServerState, i: nat, p: Packet)
    requires Tables(s) && i < |s.slots| && Remote(s.slots[i])
    ensures var r := SendClient(s, i, p);
            && r.globalSequence == s.globalSequence && |r.slots| == |s.slots|
            && (forall j :: 0 <= j < |s.slots| && j != i ==> r.slots[j] == s.slots[j])
            && Remote(r.slots[i]) && r.slots[i].encryptionIndex == s.slots[i].encryptionIndex
            && (s.slots[i].sequence < TWO63 ==> r.slots[i].sequence == s.slots[i].sequence + 1)
  {
    SendMappings(s, i, p);
    var r := SendClient(s, i, p);
    assert r.trace != s.trace;
    hide Tables, M.Touch;
  }

  lemma SendMappings(s: ServerState, i: nat, p: Packet)
    requires Tables(s) && i < |s.slots| && Remote(s.slots[i])
    ensures var r := SendClient(s, i, p);
            var e := s.slots[i].encryptionIndex;
            && 0 <= e < |s.mappings.entries| == |r.mappings.entries|
            && (forall k :: 0 <= k < |s.mappings.entries| ==>
                  KeysOf(r.mappings.entries[k]) == KeysOf(s.mappings.entries[k]))
            && s.slots[i].address != NoAddress
            && r.trace == Then(s.trace, Sent(i, s.slots[i].address, p, s.slots[i].sequence, s.mappings.entries[e].sendKey,
                                             s.protocolId))
  {
    RemoteRuns(s, i);
    assert Keyed(s.slots[i], s.mappings, s.time);
    hide Tables, Inc64, M.Expired;
  }

  lemma {:induction false} SendDisconnectsNonces(s: ServerState, i: nat, n: nat)
    requires Tables(s) && Nonces(s) && i < |s.slots| && Remote(s.slots[i])
    ensures Nonces(SendDisconnects(s, i, n))
    decreases n
  {
    hide Tables, Nonces, SendClient;
    if n > 0 {
      SendNonces(s, i, Disconnect);
      SendClientTables(s, i, Disconnect);
      SendDisconnectsNonces(SendClient(s, i, Disconnect), i, n - 1);
    }
  }

  lemma {:induction false} SendFromNonces(s: ServerState, i: nat)
    requires Tables(s) && Nonces(s) && i <= s.maxClients
    ensures Nonces(SendFrom(s, i))
    decreases s.maxClients - i
  {
    hide Tables, Nonces, SendClient;
    if i < s.maxClients {
      if KeepAliveDue(s, s.slots[i]) {
        SendNonces(s, i, KeepAlivePacket(s, i));
        SendClientTables(s, i, KeepAlivePacket(s, i));
        SendFromNonces(SendClient(s, i, KeepAlivePacket(s, i)), i + 1);
      } else {
        SendFromNonces(s, i + 1);
      }
    }
  }

  // ----- giving up a slot -----

  /** Removing a mapping leaves only entries that were there before, and not the one removed. */
  lemma RemoveStrips(m: M.Manager, a: Address, time: real, e: nat)
    requires M.Inv(m, time) && a != NoAddress && e < m.num && M.Live(m.entries[e], time) && m.entries[e].address == a
    ensures var r := M.Remove(m, a, time).1;
            && |r.entries| == |m.entries|
            && (forall k :: 0 <= k < |m.entries| && Addressed(r, k) ==> r.entries[k] == m.entries[k] && k != e)
  {
    assert M.ScanAddress(m.entries, 0, m.num, a) == e;
  }

  /** Slot i and its entry e are gone. */
  lemma SlotGone(s: ServerState, r: ServerState, i: nat, e: nat)
    requires Core(s) && Wired(r) && i < |s.slots|
    requires SameTrace(s.trace, r.trace) && r.globalSequence == s.globalSequence
    requires |r.mappings.entries| == |s.mappings.entries|
    requires forall k :: 0 <= k < |s.mappings.entries| && Addressed(r.mappings, k) ==>
               r.mappings.entries[k] == s.mappings.entries[k] && k != e
    requires |r.slots| == |s.slots| && !Remote(r.slots[i])
    requires forall j :: 0 <= j < |s.slots| && j != i ==> r.slots[j] == s.slots[j]
    ensures Core(r)
  {
    hide Good, Sealings, SeatKeys, Sends, AllDistinct, ClearFrom, Holder, KeysDiffer;
    forall j | 0 <= j < |r.slots| && Remote(r.slots[j])
      ensures 0 <= r.slots[j].encryptionIndex < |r.mappings.entries|
      ensures r.mappings.entries[r.slots[j].encryptionIndex] == s.mappings.entries[s.slots[j].encryptionIndex]
    {
      assert Addressed(r.mappings, r.slots[j].encryptionIndex);
    }
    assert Locked(r);
    if Good(r.trace) && KeysDiffer(SeatKeys(r.trace)) {
      assert Counted(r);
      assert Ahead(r);
    }
  }

  lemma ReleaseNonces(s: ServerState, i: nat)
    requires Tables(s) && Nonces(s) && i < |s.slots| && Remote(s.slots[i])
    ensures Nonces(Release(s, i))
  {
    var r := Release(s, i);
    ReleaseTables(s, i);
    TablesWired(r);
    var e := s.slots[i].encryptionIndex;
    assert Keyed(s.slots[i], s.mappings, s.time);
    RemoveStrips(s.mappings, s.slots[i].address, s.time, e);
    PopAllQuiet(Box(s, i), i);
    QuietEffect(PopAll(Box(s, i), i).trace, Released(i));
    assert r.trace == Then(PopAll(Box(s, i), i).trace, Released(i));
    hide Tables, Core, Wired, PopAll, M.Remove, Good, Sealings, SeatKeys, Sends, Holder, KeysDiffer, AllDistinct;
    SlotGone(s, r, i, e);
  }

  lemma DisconnectNonces(s: ServerState, i: nat, sendPackets: bool)
    requires Tables(s) && Nonces(s) && i < |s.slots| && Remote(s.slots[i])
    ensures Nonces(DisconnectInternal(s, i, sendPackets))
  {
    RemoteRuns(s, i);
    hide Tables, Nonces, Release, SendDisconnects;
    if sendPackets {
      SendDisconnectsNonces(s, i, NUM_DISCONNECT_PACKETS);
      SendDisconnectsTables(s, i, NUM_DISCONNECT_PACKETS);
      ReleaseNonces(SendDisconnects(s, i, NUM_DISCONNECT_PACKETS), i);
    } else {
      ReleaseNonces(s, i);
    }
  }

  lemma {:induction false} DisconnectFromNonces(s: ServerState, i: nat)
    requires Tables(s) && Nonces(s) && i <= s.maxClients
    ensures Nonces(DisconnectFrom(s, i))
    decreases s.maxClients - i
  {
    hide Tables, Nonces, DisconnectInternal;
    if i < s.maxClients {
      if Remote(s.slots[i]) {
        DisconnectNonces(s, i, true);
        DisconnectTables(s, i, true);
        DisconnectFromNonces(DisconnectInternal(s, i, true), i + 1);
      } else {
        DisconnectFromNonces(s, i + 1);
      }
    }
  }

  // ----- granting -----

  /** A mapping takes entry k, which no client holds. */
  lemma MappingMade(s: ServerState, r: ServerState, k: nat, e: M.Mapping)
    requires Core(s) && k < |s.mappings.entries| && !Held(s, k)
    requires SameTrace(s.trace, r.trace) && r.slots == s.slots && r.globalSequence == s.globalSequence
    requires r.mappings.entries == s.mappings.entries[k := e]
    ensures Core(r)
  {
    hide Good, Sealings, SeatKeys, Sends, AllDistinct, ClearFrom, Holder, KeysDiffer;
    forall j | 0 <= j < |r.slots| && Remote(r.slots[j])
      ensures 0 <= r.slots[j].encryptionIndex < |r.mappings.entries|
      ensures r.mappings.entries[r.slots[j].encryptionIndex] == s.mappings.entries[s.slots[j].encryptionIndex]
    {
      assert Held(s, s.slots[j].encryptionIndex);
    }
    assert Locked(r);
    if Good(r.trace) && KeysDiffer(SeatKeys(r.trace)) {
      assert Counted(r);
      assert Ahead(r);
    }
  }

  /** Where add puts a mapping. */
  lemma AddPuts(m: M.Manager, e: M.Mapping, time: real) returns (k: nat)
    requires m.num <= |m.entries| && M.Add(m, e, time).0
    ensures k < |m.entries| && M.Add(m, e, time).1.entries == m.entries[k := e]
  {
    var i := M.ScanLive(m.entries, 0, m.num, e.address, time);
    k := if i < m.num then i else M.ScanFree(m.entries, 0, time);
  }

  lemma GrantNonces(a: Aead, s: ServerState, from: Address, t: PrivateToken)
    requires Lawful(a) && Tables(s) && Nonces(s) && RequestAcceptable(s, from, t)
    ensures var (added, m) := M.Add(s.mappings, RequestMapping(s, from, t), s.time);
            added ==> Nonces(SendChallenge(a, s.(mappings := m), from, t))
  {
    var e := RequestMapping(s, from, t);
    var (added, m) := M.Add(s.mappings, e, s.time);
    if added {
      var k := AddPuts(s.mappings, e, s.time);
      var mapped := s.(mappings := m);
      AddMappingTables(s, from, t);
      TablesWired(mapped);
      NobodyHolds(s, m, from, t, k);
      var g := Granted(from, t.clientId, t.userData, s.challengeSequence, t.serverToClientKey);
      var granted := mapped.(challengeSequence := Inc64(s.challengeSequence), trace := Then(s.trace, g));
      QuietEffect(s.trace, g);
      hide Core, Sealings, SeatKeys, Sends, Good, Holder, KeysDiffer, AllDistinct, Held, Tables, Wired, M.Add,
           RequestAcceptable, SealChallenge;
      MappingMade(s, granted, k, e);
      assert Nonces(granted);
      hide Nonces;
      var sealed := SealChallenge(a, ChallengeToken(t.clientId, t.userData), s.challengeSequence, s.challengeKey);
      OpenSealChallenge(a, ChallengeToken(t.clientId, t.userData), s.challengeSequence, s.challengeKey);
      GlobalNonces(granted, from, Challenge(s.challengeSequence, sealed), t.serverToClientKey);
    }
  }

  /** The entry a new mapping is put in belongs to no client. */
  lemma NobodyHolds(s: ServerState, m: M.Manager, from: Address, t: PrivateToken, k: nat)
    requires Tables(s) && RequestAcceptable(s, from, t) && |m.entries| == |s.mappings.entries| && m.num <= |m.entries|
    requires k < |m.entries| && m.entries[k].address == from && Wired(s.(mappings := m))
    ensures !Held(s, k)
  {
    if Held(s, k) {
      var j :| 0 <= j < |s.slots| && Remote(s.slots[j]) && s.slots[j].encryptionIndex == k;
      HolderIsElsewhere(s, m, from, j);
      NotFoundByAddress(s, from, j);
      assert false;
    }
  }

  lemma HolderIsElsewhere(s: ServerState, m: M.Manager, from: Address, j: nat)
    requires j < |s.slots| && Remote(s.slots[j]) && m.num <= |m.entries| && Wired(s.(mappings := m))
    requires 0 <= s.slots[j].encryptionIndex < |m.entries| && m.entries[s.slots[j].encryptionIndex].address == from
    ensures s.slots[j].address == from != NoAddress
  {
    var r := s.(mappings := m);
    assert Remote(r.slots[j]);
    assert Addressed(r.mappings, r.slots[j].encryptionIndex);
  }

  lemma RequestNonces(a: Aead, s: ServerState, from: Address, data: PrivateData)
    requires Lawful(a) && Tables(s) && Nonces(s)
    ensures Nonces(ProcessRequest(a, s, from, data))
  {
    hide Nonces, Tables, M.Add, H.FindOrAdd, ReadPrivate, RequestAcceptable, SendChallenge, SendGlobal, RequestMapping,
         Still, Lawful, AskHistory;
    var answer := ReadPrivate(data);
    if answer.Some? && RequestAcceptable(s, from, answer.value) {
      var t := answer.value;
      var noted := AskHistory(s, from, RequestMac(data)).1;
      AskStill(s, from, RequestMac(data));
      StillNonces(s, noted);
      GlobalNonces(noted, from, Denied, t.serverToClientKey);
      AskAcceptable(s, from, RequestMac(data), t);
      GrantNonces(a, noted, from, t);
    }
  }

  lemma AskStill(s: ServerState, from: Address, mac: Mac)
    ensures Still(s, AskHistory(s, from, mac).1)
  {
    QuietEffect(s.trace, Shown(from, mac, s.time));
    hide SameTrace;
  }

  lemma AskAcceptable(s: ServerState, from: Address, mac: Mac, t: PrivateToken)
    ensures var r := AskHistory(s, from, mac).1;
            && (RequestAcceptable(s, from, t) <==> RequestAcceptable(r, from, t))
            && (Tables(s) ==> Tables(r)) && RequestMapping(r, from, t) == RequestMapping(s, from, t)
            && r.mappings == s.mappings && r.numConnected == s.numConnected && r.maxClients == s.maxClients
            && r.time == s.time
  {
    if Tables(s) {
      TraceTables(s, AskHistory(s, from, mac).1);
    }
    hide Tables;
  }

  // ----- seating -----

  /** A client is taken in under a key; nothing is sealed yet. */
  lemma SlotSeated(s: ServerState, r: ServerState, i: nat, k: nat)
    requires Core(s) && i < |s.slots| && k < |s.mappings.entries|
    requires var keys := KeysOf(s.mappings.entries[k]);
             && SeatKeys(r.trace) == SeatKeys(s.trace) + [keys.send] && Holder(r.trace, i) == Some(keys)
    requires forall j: int :: j != i ==> Holder(r.trace, j) == Holder(s.trace, j)
    requires Sealings(r.trace) == Sealings(s.trace) && Sends(r.trace) == Sends(s.trace)
    requires (Good(r.trace) ==> Good(s.trace)) && r.globalSequence == s.globalSequence
    requires |r.mappings.entries| == |s.mappings.entries|
    requires forall j :: 0 <= j < |s.mappings.entries| ==>
               KeysOf(r.mappings.entries[j]) == KeysOf(s.mappings.entries[j])
    requires |r.slots| == |s.slots| && r.slots[i].encryptionIndex == k && r.slots[i].sequence == 0
    requires forall j :: 0 <= j < |s.slots| && j != i ==> r.slots[j] == s.slots[j]
    ensures Core(r)
  {
    var key := s.mappings.entries[k].sendKey;
    NewKey(SeatKeys(s.trace), key);
    hide Good, Sealings, SeatKeys, Sends, AllDistinct, Holder, KeysDiffer;
    assert Locked(r);
    if Good(r.trace) && KeysDiffer(SeatKeys(r.trace)) {
      assert Counted(s) && Ahead(s);
      assert ClearFrom(Sealings(s.trace), key, 0);
      hide ClearFrom;
      assert Counted(r);
      assert Ahead(r);
    }
  }

  lemma SeatCore(s: ServerState, i: nat, x: Slot)
    requires Core(s) && i < |s.slots| && 0 <= x.encryptionIndex < s.mappings.num
    requires x.sequence == 0 && x.address != NoAddress
    ensures Core(Seat(s, i, x))
  {
    var r := Seat(s, i, x);
    SeatEffect(s.trace, r.trace.last);
    assert r.trace == Then(s.trace, r.trace.last);
    hide Good, Sealings, SeatKeys, Sends, Core, Holder;
    SlotSeated(s, r, i, x.encryptionIndex);
  }

  lemma SeatEffect(t: Trace, e: Effect)
    requires e.Accepted? && e.address != NoAddress
    ensures var u := Then(t, e);
            && Sealings(u) == Sealings(t) && SeatKeys(u) == SeatKeys(t) + [e.keys.send] && Sends(u) == Sends(t)
            && (Good(u) ==> Good(t)) && Holder(u, e.slot) == Some(e.keys)
            && (forall i: int :: i != e.slot ==> Holder(u, i) == Holder(t, i))
  {
  }

  /** Taking a client in and sending it packet number 0 under its key. */
  lemma SeatPaid(t: Trace, e: Effect, f: Effect)
    requires Paid(t) && e.Accepted? && e.address != NoAddress && Seals(f) && f.key == e.keys.send && f.sequence == 0
    ensures Paid(Then(Then(t, e), f))
  {
    var u := Then(Then(t, e), f);
    var k := e.keys.send;
    assert Sealings(Then(t, e)) == Sealings(t) && SeatKeys(Then(t, e)) == SeatKeys(t) + [k];
    assert SeatKeys(u) == SeatKeys(t) + [k] && Sealings(u) == Sealings(t) + [Sealing(k, 0)];
    NewKey(SeatKeys(t), k);
    hide SeatKeys, Sealings, KeysDiffer;
    assert forall i :: 0 <= i < |Sealings(t)| ==> Sealings(u)[i] == Sealings(t)[i];
    if k in SeatKeys(t) {
      RepeatedSealing(Sealings(t), Sealing(k, 0));
    }
  }

  lemma RepeatedSealing(sent: seq<Sealing>, x: Sealing)
    requires x in sent
    ensures !AllDistinct(sent + [x])
  {
    var i :| 0 <= i < |sent| && sent[i] == x;
    assert (sent + [x])[i] == (sent + [x])[|sent|];
  }

  lemma ConnectNonces(s: ServerState, i: nat, from: Address, id: uint64, e: nat, userData: UserData)
    requires Tables(s) && Nonces(s) && i < s.maxClients && !s.slots[i].connected && s.numConnected < s.maxClients
    requires e < s.mappings.num && M.Live(s.mappings.entries[e], s.time)
    requires s.mappings.entries[e].address == from && s.mappings.entries[e].lastAccess >= s.time
    requires forall j :: 0 <= j < |s.slots| && s.slots[j].connected ==>
               s.slots[j].address != from && s.slots[j].clientId != id
    ensures Nonces(ConnectClient(s, i, from, id, e, s.mappings.entries[e].timeout, userData))
  {
    RunsWhenOpen(s);
    FreeNotLoopback(s, i);
    var x := Taken(s, s.slots[i], from, id, e, s.mappings.entries[e].timeout, userData);
    JoinTables(s, i, x);
    hide Core, Paid, Tables, SendClient, M.Live;
    SeatCore(s, i, x);
    var joined := Seat(s, i, x);
    SeatFrame(s, i, x);
    SendCore(joined, i, KeepAlivePacket(joined, i));
    SendMappings(joined, i, KeepAlivePacket(joined, i));
    SeatPaid(s.trace, joined.trace.last, SendClient(joined, i, KeepAlivePacket(joined, i)).trace.last);
  }

  lemma RunsWhenOpen(s: ServerState)
    requires Tables(s)
    ensures s.maxClients > 0 ==> s.running
  {
  }

  lemma ResponseNonces(a: Aead, s: ServerState, from: Address, sequence: uint64, data: ChallengeData, index: int,
                       client: nat)
    requires Tables(s) && Nonces(s) && Routed(s, from, index, client)
    ensures Nonces(ProcessResponse(a, s, from, sequence, data, index))
  {
    hide OpenChallenge, ConnectClient, Tables, Nonces, M.Live, FindById, FindByAddress, FindFree, SendGlobal;
    var answer := OpenChallenge(a, data, sequence, s.challengeKey);
    if answer.Some? && index != -1 {
      var id := answer.value.clientId;
      if client < |s.slots| {
        ClientIsFound(s, from, index, client);
      } else if FindByAddress(s.slots, 0, s.maxClients, from) == s.maxClients
                && FindById(s.slots, 0, s.maxClients, id) == s.maxClients {
        var e := s.mappings.entries[index];
        GlobalNonces(s, from, Denied, e.sendKey);
        if s.numConnected != s.maxClients {
          FreeSlotExists(s);
          NobodyLikeIt(s, from, id, e);
          ConnectNonces(s, FindFree(s.slots, 0, s.maxClients), from, id, index, answer.value.userData);
        }
      }
    }
  }

  // ----- datagrams -----

  /** Slots that differ in nothing that matters here. */
  lemma SlotStill(s: ServerState, i: nat, y: Slot, m: Ledger, t: Trace)
    requires i < |s.slots| && (Remote(y) <==> Remote(s.slots[i])) && y.encryptionIndex == s.slots[i].encryptionIndex
    requires (Remote(s.slots[i]) ==> y.sequence == s.slots[i].sequence) && SameTrace(s.trace, t)
    ensures Still(s, s.(slots := s.slots[i := y], memory := m, trace := t))
  {
    hide SameTrace;
  }

  lemma HearNonces(s: ServerState, i: nat)
    requires Nonces(s) && i < |s.slots|
    ensures Nonces(Hear(s, i))
  {
    var y := s.slots[i].(lastReceive := s.time, confirmed := true);
    SameItself(s.trace);
    SlotStill(s, i, y, s.memory, s.trace);
    hide Nonces, Still;
    StillNonces(s, Hear(s, i));
  }

  lemma EnqueueNonces(s: ServerState, i: nat, m: Ledger, from: Address, item: Item)
    requires Nonces(s) && i < |s.slots|
    ensures Nonces(WithBox(s, i, Enqueue(Inbox(s.slots[i].queue, m, s.trace), i, from, item)))
  {
    var b := Enqueue(Inbox(s.slots[i].queue, m, s.trace), i, from, item);
    EnqueueEffect(Inbox(s.slots[i].queue, m, s.trace), i, from, item);
    QuietEffect(s.trace, b.trace.last);
    hide Enqueue, Nonces, Still;
    SlotStill(s, i, s.slots[i].(queue := b.queue), b.memory, b.trace);
    StillNonces(s, WithBox(s, i, b));
  }

  lemma NoteNonces(s: ServerState, r: ServerState, e: Effect)
    requires Nonces(s) && Quiet(e) && r.trace == Then(s.trace, e) && r.slots == s.slots
    requires r.mappings == s.mappings && r.globalSequence == s.globalSequence
    ensures Nonces(r)
  {
    QuietEffect(s.trace, e);
    hide Nonces, SameTrace;
    assert Still(s, r);
    StillNonces(s, r);
  }

  lemma SameNonces(s: ServerState, r: ServerState)
    requires Nonces(s) && r.trace == s.trace && r.slots == s.slots
    requires r.mappings == s.mappings && r.globalSequence == s.globalSequence
    ensures Nonces(r)
  {
    SameItself(s.trace);
    hide Nonces, SameTrace;
    assert Still(s, r);
    StillNonces(s, r);
  }

  lemma HandleNonces(a: Aead, s: ServerState, from: Address, p: Packet, index: int, client: nat)
    requires Lawful(a) && Tables(s) && Nonces(s) && Routed(s, from, index, client)
    ensures Nonces(Handle(a, s, from, p, index, client))
  {
    hide Lawful, Tables, Nonces, ProcessRequest, ProcessResponse, DisconnectInternal, Hear, M.Live;
    match p
    case Request(_, _, _, _, data) => RequestNonces(a, s, from, data);
    case Response(n, data) => ResponseNonces(a, s, from, n, data, index, client);
    case KeepAlive(_, _) => if client < |s.slots| { HearNonces(s, client); }
    case Disconnect => if client < |s.slots| { DisconnectNonces(s, client, false); }
    case _ =>
  }

  lemma DeliverNonces(a: Aead, s: ServerState, from: Address, reading: Reading, index: int, client: nat)
    requires Lawful(a) && Tables(s) && Nonces(s) && Routed(s, from, index, client)
    ensures Nonces(Deliver(a, s, from, reading, index, client))
  {
    hide Lawful, Tables, Nonces, Handle, Hear, Enqueue, M.Live;
    if reading.Some? {
      var (p, q) := reading.value;
      var (id, memory) := Alloc(s.memory);
      var seen := s.(memory := memory, trace := Then(s.trace, Processed(from, p, q, KeyAt(s, index))));
      TraceTables(s, seen);
      NoteNonces(s, seen, Processed(from, p, q, KeyAt(s, index)));
      if p.Payload? && client < |s.slots| {
        HearNonces(seen, client);
        HearFrame(seen, client);
        var heard := Hear(seen, client);
        EnqueueNonces(heard, client, heard.memory, from, Item(id, p.data, q));
      } else {
        HandleNonces(a, seen, from, p, index, client);
        var done := Handle(a, seen, from, p, index, client);
        SameNonces(done, done.(memory := Free(done.memory, id)));
      }
    }
  }

  lemma RouteStill(s: ServerState, from: Address)
    ensures Still(s, s.(mappings := Route(s, from).2))
  {
    SameItself(s.trace);
    hide FindByAddress, SameTrace;
  }

  lemma WindowStill(s: ServerState, client: nat, w: Option<R.Window>)
    ensures Still(s, PutWindow(s, client, w))
  {
    SameItself(s.trace);
    hide SameTrace;
    if client < |s.slots| && w.Some? {
      SlotStill(s, client, s.slots[client].(window := w.value), s.memory, s.trace);
    }
  }

  lemma ReceiveNonces(a: Aead, s: ServerState, d: Datagram, now: uint64)
    requires Lawful(a) && Tables(s) && Nonces(s)
    ensures Nonces(Receive(a, s, d, now))
  {
    hide Lawful, Tables, Nonces, Still, Route, Read, Deliver, PutWindow, Routed;
    if s.running && |d.data| > 1 {
      RouteTables(s, d.from);
      RouteStill(s, d.from);
      var (client, index, m) := Route(s, d.from);
      var routed := s.(mappings := m);
      StillNonces(s, routed);
      if !(index == -1 && d.data[0] != 0) {
        var key := if index == -1 then None else Some(m.entries[index].receiveKey);
        var (reading, w) := Read(a, s, d, now, client, key);
        PutWindowTables(routed, client, w, d.from, index);
        WindowStill(routed, client, w);
        StillNonces(routed, PutWindow(routed, client, w));
        DeliverNonces(a, PutWindow(routed, client, w), d.from, reading, index, client);
      }
    }
  }

  lemma {:induction false} ReceiveAllNonces(a: Aead, s: ServerState, ds: seq<Datagram>, now: uint64)
    requires Lawful(a) && Tables(s) && Nonces(s)
    ensures Nonces(ReceiveAll(a, s, ds, now))
    decreases |ds|
  {
    hide Lawful, Tables, Nonces, Receive;
    if ds != [] {
      ReceiveNonces(a, s, ds[0], now);
      ReceiveTables(a, s, ds[0], now);
      ReceiveAllNonces(a, Receive(a, s, ds[0], now), ds[1..], now);
    }
  }

  lemma UpdateNonces(a: Aead, s: ServerState, time: real, ds: seq<Datagram>, now: uint64)
    requires Lawful(a) && Tables(s) && RecentlySent(s) && OnTime(s, time) && Nonces(s)
    ensures Nonces(Update(a, s, time, ds, now))
  {
    hide Lawful, Tables, RecentlySent, OnTime, Nonces, ReceiveAll, SendFrom, DisconnectInternal;
    var ticked := s.(time := time);
    TickTables(s, time);
    SameNonces(s, ticked);
    ReceiveAllNonces(a, ticked, ds, now);
    ReceiveAllTables(a, ticked, ds, now);
    var received := ReceiveAll(a, ticked, ds, now);
    if received.running {
      SendFromNonces(received, 0);
    }
    SendPacketsTables(received);
    var sent := SendPackets(received);
    var i := FindTimedOut(sent, 0, sent.maxClients);
    if sent.running && i < sent.maxClients {
      DisconnectNonces(sent, i, false);
    }
  }

  // ----- the application's calls -----

  /** With nobody on the network, once the server was stopped. */
  lemma IdleNonces(s: ServerState)
    requires AllClean(s.slots) && EverStopped(s.trace) && Paid(s.trace)
    ensures Nonces(s)
  {
    hide Paid;
    forall i | 0 <= i < |s.slots|
      ensures !Remote(s.slots[i])
    {
      assert Clean(s.slots[i]);
    }
  }

  lemma StopNonces(s: ServerState)
    requires Tables(s) && Nonces(s) && (s.running ==> NoLoopback(s))
    ensures Nonces(Stop(s)) && (s.running ==> EverStopped(Stop(s).trace))
  {
    if s.running {
      StopClean(s);
      DisconnectFromNonces(s, 0);
      QuietPaid(DisconnectFrom(s, 0).trace, Stopped);
      hide Tables, AllClean, DisconnectFrom, Paid;
      IdleNonces(Stop(s));
    }
  }

  lemma QuietPaid(t: Trace, e: Effect)
    requires Paid(t) && !e.Sent? && !e.Accepted?
    ensures Paid(Then(t, e))
  {
    assert SeatKeys(Then(t, e)) == SeatKeys(t) && Sealings(Then(t, e)) == Sealings(t);
    hide SeatKeys, Sealings, KeysDiffer, AllDistinct;
  }

  lemma StartNonces(s: ServerState, max: nat, key: Key)
    requires Tables(s) && Nonces(s) && (s.running ==> NoLoopback(s)) && max <= |s.slots|
    ensures Nonces(Start(s, max, key))
  {
    StopNonces(s);
    StopClean(s);
    var idle := Stop(s);
    var r := Start(s, max, key);
    QuietEffect(idle.trace, Started);
    hide Nonces, SameTrace, Tables, Stop;
    forall i | 0 <= i < |r.slots|
      ensures !Remote(r.slots[i])
    {
      assert Clean(idle.slots[i]);
    }
    assert Still(idle, r);
    StillNonces(idle, r);
  }

  /** Loopback clients have no part in this. */
  lemma LoopbackStill(s: ServerState, r: ServerState, i: nat)
    requires i < |s.slots| && SameTrace(s.trace, r.trace)
    requires r.mappings == s.mappings && r.globalSequence == s.globalSequence
    requires |r.slots| == |s.slots| && !Remote(r.slots[i]) && r.slots == s.slots[i := r.slots[i]]
    ensures Still(s, r)
  {
    hide SameTrace;
  }

  lemma LoopbackSendNonces(s: ServerState, i: nat, data: bytes)
    requires Nonces(s) && s.running && i < |s.slots| && s.slots[i].connected && s.slots[i].loopback
    ensures Nonces(SendPayload(s, i, data))
  {
    var r := SendPayload(s, i, data);
    SentEffect(s.trace, r.trace.last);
    SentPaid(s.trace, r.trace.last);
    hide Sealings, SeatKeys, Sends, Good, Holder, AllDistinct, ClearFrom, KeysDiffer, Paid;
    assert Locked(r);
    if Good(r.trace) && KeysDiffer(SeatKeys(r.trace)) {
      assert Counted(r);
      assert Ahead(r);
    }
  }

  lemma SendPayloadNonces(s: ServerState, i: nat, data: bytes)
    requires Tables(s) && Nonces(s) && (s.running ==> i < |s.slots|)
    ensures Nonces(SendPayload(s, i, data))
  {
    hide Tables, Nonces, SendClient;
    var x := if s.running then s.slots[i] else FreeSlot();
    if s.running && Remote(x) {
      var first := if x.confirmed then s else SendClient(s, i, KeepAlivePacket(s, i));
      if !x.confirmed {
        SendNonces(s, i, KeepAlivePacket(s, i));
        SendClientTables(s, i, KeepAlivePacket(s, i));
      }
      SendNonces(first, i, Payload(data));
    } else if s.running && x.connected {
      LoopbackSendNonces(s, i, data);
    }
  }

  lemma ReceivePayloadNonces(s: ServerState, i: nat)
    requires Nonces(s) && (s.running ==> i < |s.slots|)
    ensures Nonces(ReceivePayload(s, i).1)
  {
    if s.running && s.slots[i].connected {
      var b := Dequeue(Box(s, i), i).1;
      DequeueEffect(Box(s, i), i);
      if b.trace != s.trace {
        QuietEffect(s.trace, b.trace.last);
      } else {
        SameItself(s.trace);
      }
      hide Dequeue, Nonces, Still, SameTrace;
      SlotStill(s, i, s.slots[i].(queue := b.queue), b.memory, b.trace);
      StillNonces(s, WithBox(s, i, b));
    }
  }

  lemma LoopbackConnectNonces(s: ServerState, i: nat, id: uint64, userData: UserData)
    requires Nonces(s) && i < |s.slots|
    ensures Nonces(ConnectLoopback(s, i, id, userData))
  {
    var r := ConnectLoopback(s, i, id, userData);
    assert Paid(r.trace) by {
      assert SeatKeys(r.trace) == SeatKeys(s.trace) && Sealings(r.trace) == Sealings(s.trace);
      hide SeatKeys, Sealings, KeysDiffer, AllDistinct;
    }
    assert Sealings(r.trace) == Sealings(s.trace) && SeatKeys(r.trace) == SeatKeys(s.trace);
    assert Sends(r.trace) == Sends(s.trace) && (Good(r.trace) ==> Good(s.trace));
    assert forall j: int :: j != i ==> Holder(r.trace, j) == Holder(s.trace, j);
    hide Sealings, SeatKeys, Sends, Good, Holder, AllDistinct, ClearFrom, KeysDiffer, Paid;
    assert Locked(r);
    if Good(r.trace) && KeysDiffer(SeatKeys(r.trace)) {
      assert Counted(r);
      assert Ahead(r);
    }
  }

  lemma LoopbackDisconnectNonces(s: ServerState, i: nat)
    requires Nonces(s) && i < |s.slots|
    ensures Nonces(DisconnectLoopback(s, i))
  {
    PopAllQuiet(Box(s, i), i);
    QuietEffect(PopAll(Box(s, i), i).trace, Released(i));
    hide Nonces, PopAll, SameTrace;
    SameTwice(s.trace, PopAll(Box(s, i), i).trace, DisconnectLoopback(s, i).trace);
    LoopbackStill(s, DisconnectLoopback(s, i), i);
    StillNonces(s, DisconnectLoopback(s, i));
  }

  lemma LoopbackPacketNonces(s: ServerState, i: nat, data: bytes, sequence: uint64)
    requires Nonces(s) && i < |s.slots|
    ensures Nonces(ProcessLoopback(s, i, data, sequence))
  {
    var (id, memory) := Alloc(s.memory);
    var y := s.slots[i].(lastReceive := s.time);
    SameItself(s.trace);
    SlotStill(s, i, y, s.memory, s.trace);
    var heard := PutSlot(s, i, y);
    hide Nonces, Still, Enqueue;
    StillNonces(s, heard);
    EnqueueNonces(heard, i, memory, NoAddress, Item(id, data, sequence));
  }

  lemma StepNonces(a: Aead, s: ServerState, e: Event)
    requires Lawful(a) && Tables(s) && RecentlySent(s) && Nonces(s) && Enabled(s, e) && Orderly(s, e)
    ensures Nonces(Step(a, s, e))
  {
    hide Lawful, Tables, RecentlySent, OnTime, Nonces, Start, Stop, Update, SendPayload, ReceivePayload,
         DisconnectInternal, DisconnectFrom, ConnectLoopback, DisconnectLoopback, ProcessLoopback;
    match e
    case StartEvent(max, key) => StartNonces(s, max, key);
    case StopEvent => StopNonces(s);
    case UpdateEvent(time, datagrams, now) => UpdateNonces(a, s, time, datagrams, now);
    case SendEvent(i, data) => SendPayloadNonces(s, i, data);
    case ReceiveEvent(i) => ReceivePayloadNonces(s, i);
    case FreeEvent(id) => SameNonces(s, Step(a, s, e));
    case DisconnectEvent(i) => if s.running && Remote(s.slots[i]) { DisconnectNonces(s, i, true); }
    case DisconnectAllEvent => DisconnectFromNonces(s, 0);
    case ConnectLoopbackEvent(i, id, userData) => LoopbackConnectNonces(s, i, id, userData);
    case DisconnectLoopbackEvent(i) => LoopbackDisconnectNonces(s, i);
    case LoopbackPacketEvent(i, data, sequence) => LoopbackPacketNonces(s, i, data, sequence);
  }

  lemma {:induction false} RunNonces(a: Aead, s: ServerState, es: seq<Event>)
    requires Lawful(a) && Tables(s) && RecentlySent(s) && Nonces(s) && OrderlyRun(a, s, es)
    ensures Nonces(Run(a, s, es))
    decreases |es|
  {
    hide Lawful, Tables, RecentlySent, Nonces, Step, Orderly, Enabled;
    if es != [] {
      StepNonces(a, s, es[0]);
      StepTables(a, s, es[0]);
      RunNonces(a, Step(a, s, es[0]), es[1..]);
    }
  }

  lemma NewNonces(s: ServerState)
    requires s.trace == Nothing && s.globalSequence == TWO63 && (forall i :: 0 <= i < |s.slots| ==> !Remote(s.slots[i]))
    ensures Nonces(s)
  {
  }
}
