/** The slot table and the mapping table of the server agree in every run. */
module ServerTables {
  import opened Types
  import opened Crypto
  import opened Tokens
  import opened Packets
  import opened Replay
  import opened Queue
  import opened Traces
  import opened Memory
  import opened Inbox
  import opened Server
  import M = Mappings
  import H = TokenHistory

  // ----- the invariants -----

  /** A slot nobody holds has been reset completely. */
  ghost predicate Clean(x: Slot) {
    && !x.connected && !x.loopback && !x.confirmed
    && x.clientId == 0 && x.sequence == 0 && x.encryptionIndex == -1 && x.address == NoAddress
    && x.window == Fresh(|x.window.received|)
    && Contents(x.queue) == []
  }

  ghost predicate SlotOk(x: Slot) {
    && (!x.connected ==> Clean(x))
    && (x.connected && x.loopback ==>
          x.address == NoAddress && x.encryptionIndex == -1 && x.window == Fresh(|x.window.received|))
  }

  function Count(slots: seq<Slot>, n: nat): (k: nat)
    requires n <= |slots|
    ensures k <= n
  {
    if n == 0 then 0 else Count(slots, n - 1) + if slots[n - 1].connected then 1 else 0
  }

  /** The slot table on its own. */
  ghost predicate SlotTable(slots: seq<Slot>, maxClients: nat, numConnected: int) {
    && maxClients <= |slots|
    && numConnected == Count(slots, maxClients)
    && (forall i :: 0 <= i < |slots| ==> SlotOk(slots[i]))
    && (forall i :: maxClients <= i < |slots| ==> !slots[i].connected)
    && (forall i, j :: 0 <= i < j < |slots| && Remote(slots[i]) && Remote(slots[j]) ==>
          slots[i].address != slots[j].address && slots[i].clientId != slots[j].clientId)
  }

  /** A slot's encryption index names a live entry for the slot's own address, which no longer
      expires on its own and was accessed when the slot last sent. */
  ghost predicate Keyed(x: Slot, m: M.Manager, time: real) {
    && 0 <= x.encryptionIndex < m.num <= |m.entries|
    && var e := m.entries[x.encryptionIndex];
    && x.address != NoAddress && e.address == x.address
    && !M.Expired(e, time)
    && e.timeout == x.timeout && e.expireTime < 0.0
    && x.lastSend <= e.lastAccess
  }

  ghost predicate CrossTable(slots: seq<Slot>, m: M.Manager, time: real) {
    forall i :: 0 <= i < |slots| && Remote(slots[i]) ==> Keyed(slots[i], m, time)
  }

  ghost predicate Tables(s: ServerState) {
    && !s.fault
    && (!s.running ==> s.maxClients == 0)
    && SlotTable(s.slots, s.maxClients, s.numConnected)
    && M.Inv(s.mappings, s.time)
    && CrossTable(s.slots, s.mappings, s.time)
  }

  lemma CreateTables(address: Address, protocolId: uint64, key: Key, f: bool, g: bool, time: real)
    ensures Tables(Create(address, protocolId, key, f, g, time))
  {
    M.ResetInv(MAX_ENCRYPTION_MAPPINGS, time);
  }

  /** No two connected remote slots share an encryption index. */
  lemma IndicesDistinct(s: ServerState, i: nat, j: nat)
    requires Tables(s) && i < j < |s.slots| && Remote(s.slots[i]) && Remote(s.slots[j])
    ensures s.slots[i].encryptionIndex != s.slots[j].encryptionIndex
  {
  }

  // ----- counting -----

  lemma {:induction false} CountUpdate(slots: seq<Slot>, n: nat, i: nat, y: Slot)
    requires n <= |slots| && i < |slots|
    ensures Count(slots[i := y], n)
            == Count(slots, n) + (if i < n && y.connected then 1 else 0) - (if i < n && slots[i].connected then 1 else 0)
  {
    if n > 0 {
      CountUpdate(slots, n - 1, i, y);
    }
  }

  lemma {:induction false} CountFull(slots: seq<Slot>, n: nat)
    requires n <= |slots|
    ensures Count(slots, n) == n <==> forall j :: 0 <= j < n ==> slots[j].connected
  {
    if n > 0 {
      CountFull(slots, n - 1);
    }
  }

  lemma {:induction false} CountNone(slots: seq<Slot>, n: nat)
    requires n <= |slots| && forall j :: 0 <= j < n ==> !slots[j].connected
    ensures Count(slots, n) == 0
  {
    if n > 0 {
      CountNone(slots, n - 1);
    }
  }

  /** A server that is not full has a free slot, and the search finds it. */
  lemma FreeSlotExists(s: ServerState)
    requires Tables(s)
    ensures s.numConnected <= s.maxClients
    ensures s.numConnected < s.maxClients <==> FindFree(s.slots, 0, s.maxClients) < s.maxClients
  {
    CountFull(s.slots, s.maxClients);
  }

  // ----- changing one slot or the mappings -----

  /** Fields that do not matter to the tables. */
  ghost predicate SameHolder(x: Slot, y: Slot) {
    && x.connected == y.connected && x.loopback == y.loopback && x.clientId == y.clientId
    && x.address == y.address && x.encryptionIndex == y.encryptionIndex && x.timeout == y.timeout
  }

  lemma PutSlotTables(s: ServerState, i: nat, y: Slot)
    requires Tables(s) && i < |s.slots| && SameHolder(s.slots[i], y) && y.connected && SlotOk(y)
    requires y.lastSend == s.slots[i].lastSend
    ensures Tables(PutSlot(s, i, y))
  {
    hide M.Inv, M.Expired, SlotOk;
    CountUpdate(s.slots, s.maxClients, i, y);
  }

  /** A mapping table that keeps the entries of all remote slots. */
  lemma PutMappingsTables(s: ServerState, m: M.Manager)
    requires Tables(s) && M.Inv(m, s.time)
    requires forall i :: 0 <= i < |s.slots| && Remote(s.slots[i]) ==>
               && s.slots[i].encryptionIndex < m.num
               && m.entries[s.slots[i].encryptionIndex] == s.mappings.entries[s.slots[i].encryptionIndex]
    ensures Tables(s.(mappings := m))
  {
    hide M.Expired, SlotOk;
  }

  // ----- sending -----

  lemma SendClientTables(s: ServerState, i: nat, p: Packet)
    requires Tables(s) && i < |s.slots| && Remote(s.slots[i])
    ensures var r := SendClient(s, i, p);
            && Tables(r)
            && r.slots == s.slots[i := s.slots[i].(sequence := Inc64(s.slots[i].sequence), lastSend := s.time)]
            && r == s.(mappings := r.mappings, slots := r.slots, trace := r.trace)
  {
    hide SlotOk;
    var x := s.slots[i];
    var e := x.encryptionIndex;
    assert Keyed(x, s.mappings, s.time);
    M.TouchInv(s.mappings, e, x.address, s.time);
    var r := SendClient(s, i, p);
    CountUpdate(s.slots, s.maxClients, i, r.slots[i]);
    forall j | 0 <= j < |r.slots| && Remote(r.slots[j])
      ensures Keyed(r.slots[j], r.mappings, r.time)
    {
      if j != i {
        assert Keyed(s.slots[j], s.mappings, s.time);
        IndicesDistinct(s, if i < j then i else j, if i < j then j else i);
      }
    }
    assert SlotOk(r.slots[i]) by { SlotOkKept(x, r.slots[i]); }
  }

  lemma SlotOkKept(x: Slot, y: Slot)
    requires x.connected && SlotOk(x) && SameHolder(x, y) && y.window == x.window
    ensures SlotOk(y)
  {
  }

  // ----- time -----

  /** Every remote slot was sent something less than a send interval ago. */
  ghost predicate RecentlySent(s: ServerState) {
    forall i :: 0 <= i < |s.slots| && Remote(s.slots[i]) ==> s.slots[i].lastSend + SEND_INTERVAL > s.time
  }

  /** Updates come in order, and no later than a send interval before any client's timeout. */
  ghost predicate OnTime(s: ServerState, time: real) {
    && s.time <= time
    && (forall i :: 0 <= i < |s.slots| && Remote(s.slots[i]) && s.slots[i].timeout > 0 ==>
          time - s.time + SEND_INTERVAL <= s.slots[i].timeout as real)
  }

  lemma TickTables(s: ServerState, time: real)
    requires Tables(s) && RecentlySent(s) && OnTime(s, time)
    ensures Tables(s.(time := time))
  {
    M.TickInv(s.mappings, s.time, time);
    hide M.Inv, SlotOk;
    forall i | 0 <= i < |s.slots| && Remote(s.slots[i])
      ensures Keyed(s.slots[i], s.mappings, time)
    {
      assert Keyed(s.slots[i], s.mappings, s.time);
    }
  }

  // ----- disconnecting -----

  lemma {:induction false} SendDisconnectsTables(s: ServerState, i: nat, n: nat)
    requires Tables(s) && i < |s.slots| && Remote(s.slots[i])
    ensures var r := SendDisconnects(s, i, n);
            && Tables(r) && Remote(r.slots[i])
            && r == s.(mappings := r.mappings, slots := r.slots, trace := r.trace)
            && (RecentlySent(s) ==> RecentlySent(r))
            && (forall j :: 0 <= j < |s.slots| && j != i ==> r.slots[j] == s.slots[j])
    decreases n
  {
    hide Tables, SendClient;
    if n > 0 {
      SendClientTables(s, i, Disconnect);
      var r := SendClient(s, i, Disconnect);
      assert Remote(r.slots[i]);
      SendDisconnectsTables(r, i, n - 1);
    }
  }

  lemma VacatedClean(x: Slot, q: Ring)
    requires Contents(q) == []
    ensures Clean(Vacated(x).(window := Fresh(|x.window.received|), queue := q))
  {
  }

  /** Removing a slot's mapping keeps every other remote slot's entry. */
  lemma RemoveKeepsOthers(s: ServerState, i: nat, j: nat)
    requires Tables(s) && i < |s.slots| && j < |s.slots| && i != j && Remote(s.slots[i]) && Remote(s.slots[j])
    ensures Keyed(s.slots[j], M.Remove(s.mappings, s.slots[i].address, s.time).1, s.time)
  {
    M.RemoveInv(s.mappings, s.slots[i].address, s.time);
    hide M.Remove, M.Expired, SlotOk;
    assert Keyed(s.slots[j], s.mappings, s.time) && Keyed(s.slots[i], s.mappings, s.time);
    assert M.Live(s.mappings.entries[s.slots[j].encryptionIndex], s.time);
  }

  lemma ReleaseTables(s: ServerState, i: nat)
    requires Tables(s) && i < |s.slots| && Remote(s.slots[i])
    ensures var r := Release(s, i);
            && Tables(r) && !r.slots[i].connected && !r.slots[i].loopback
            && (RecentlySent(s) ==> RecentlySent(r))
            && (forall j :: 0 <= j < |s.slots| && j != i ==> r.slots[j] == s.slots[j])
            && r == s.(mappings := r.mappings, memory := r.memory, trace := r.trace, slots := r.slots,
                       numConnected := r.numConnected)
  {
    DrainLedger(Box(s, i), i);
    hide M.Remove, M.Inv, M.Expired, M.KeepsOthers, M.OnlyAdds, Drain, SlotOk, Contents, CrossTable, Keyed;
    var r := Release(s, i);
    CountUpdate(s.slots, s.maxClients, i, r.slots[i]);
    assert SlotOk(r.slots[i]) by { VacatedOk(s.slots[i], r.slots[i].queue); }
    ReleaseCross(s, i);
  }

  lemma ReleaseCross(s: ServerState, i: nat)
    requires Tables(s) && i < |s.slots| && Remote(s.slots[i])
    ensures M.Inv(Release(s, i).mappings, s.time) && CrossTable(Release(s, i).slots, Release(s, i).mappings, s.time)
    ensures RecentlySent(s) ==> RecentlySent(Release(s, i))
  {
    M.RemoveInv(s.mappings, s.slots[i].address, s.time);
    hide M.Remove, M.Inv, M.Expired, M.KeepsOthers, M.OnlyAdds, Drain, SlotOk, Contents;
    var r := Release(s, i);
    forall j | 0 <= j < |r.slots| && Remote(r.slots[j])
      ensures Keyed(r.slots[j], r.mappings, r.time)
    {
      RemoveKeepsOthers(s, i, j);
    }
  }

  lemma VacatedOk(x: Slot, q: Ring)
    requires Contents(q) == []
    ensures SlotOk(Vacated(x).(window := Fresh(|x.window.received|), queue := q))
  {
    VacatedClean(x, q);
  }

  lemma RemoteRuns(s: ServerState, i: nat)
    requires Tables(s) && i < |s.slots| && s.slots[i].connected
    ensures s.running && i < s.maxClients && s.numConnected >= 1
  {
    CountUpdate(s.slots, s.maxClients, i, s.slots[i].(connected := false));
  }

  lemma DisconnectTables(s: ServerState, i: nat, sendPackets: bool)
    requires Tables(s) && i < |s.slots| && Remote(s.slots[i])
    ensures var r := DisconnectInternal(s, i, sendPackets);
            && Tables(r) && !r.slots[i].connected && !r.slots[i].loopback
            && (RecentlySent(s) ==> RecentlySent(r))
            && (forall j :: 0 <= j < |s.slots| && j != i ==> r.slots[j] == s.slots[j])
            && r == s.(mappings := r.mappings, memory := r.memory, trace := r.trace, slots := r.slots,
                       numConnected := r.numConnected)
  {
    RemoteRuns(s, i);
    hide Tables, Release, SendDisconnects;
    if sendPackets {
      SendDisconnectsTables(s, i, NUM_DISCONNECT_PACKETS);
      ReleaseTables(SendDisconnects(s, i, NUM_DISCONNECT_PACKETS), i);
    } else {
      ReleaseTables(s, i);
    }
  }

  lemma {:induction false} DisconnectFromTables(s: ServerState, i: nat)
    requires Tables(s) && i <= s.maxClients
    requires forall j :: 0 <= j < i ==> !Remote(s.slots[j])
    ensures var r := DisconnectFrom(s, i);
            && Tables(r) && (RecentlySent(s) ==> RecentlySent(r))
            && (forall j :: 0 <= j < r.maxClients ==> !Remote(r.slots[j]))
            && (forall j :: 0 <= j < |s.slots| && !Remote(s.slots[j]) ==> r.slots[j] == s.slots[j])
            && (forall j :: 0 <= j < |s.slots| && r.slots[j].loopback ==> s.slots[j].loopback)
            && r == s.(mappings := r.mappings, memory := r.memory, trace := r.trace, slots := r.slots,
                       numConnected := r.numConnected)
    decreases s.maxClients - i
  {
    hide Tables, DisconnectInternal;
    if i < s.maxClients {
      if Remote(s.slots[i]) {
        DisconnectTables(s, i, true);
        DisconnectFromTables(DisconnectInternal(s, i, true), i + 1);
      } else {
        DisconnectFromTables(s, i + 1);
      }
    }
  }

  // ----- starting and stopping -----

  ghost predicate NoLoopback(s: ServerState) {
    forall i :: 0 <= i < |s.slots| ==> !s.slots[i].loopback
  }

  ghost predicate AllClean(slots: seq<Slot>) {
    forall i :: 0 <= i < |slots| ==> Clean(slots[i])
  }

  lemma CleanSlotTable(slots: seq<Slot>, max: nat)
    requires AllClean(slots) && max <= |slots|
    ensures SlotTable(slots, max, 0)
  {
    CountNone(slots, max);
  }

  lemma StoppedClean(s: ServerState)
    requires Tables(s) && !s.running
    ensures AllClean(s.slots)
  {
    assert forall i :: 0 <= i < |s.slots| ==> SlotOk(s.slots[i]) && !s.slots[i].connected;
  }

  lemma DisconnectedClean(s: ServerState, d: ServerState)
    requires Tables(d) && NoLoopback(s) && |s.slots| == |d.slots|
    requires forall j :: 0 <= j < d.maxClients ==> !Remote(d.slots[j])
    requires forall j :: 0 <= j < |s.slots| && d.slots[j].loopback ==> s.slots[j].loopback
    ensures AllClean(d.slots)
  {
    hide Clean;
    assert forall j :: 0 <= j < |d.slots| ==> SlotOk(d.slots[j]) && !d.slots[j].connected;
  }

  /** Without loopback clients a stopped server holds nothing. */
  lemma StopClean(s: ServerState)
    requires Tables(s) && (s.running ==> NoLoopback(s))
    ensures var r := Stop(s);
            && AllClean(r.slots) && !r.running && r.maxClients == 0 && !r.fault && r.time == s.time
            && M.Inv(r.mappings, r.time)
  {
    if s.running {
      hide Tables, M.Inv, Clean;
      DisconnectFromTables(s, 0);
      var d := DisconnectFrom(s, 0);
      M.ResetInv(|d.mappings.entries|, d.time);
      DisconnectedClean(s, d);
      TablesNoFault(d);
    } else {
      StoppedClean(s);
    }
  }

  lemma TablesNoFault(s: ServerState)
    requires Tables(s)
    ensures !s.fault && M.Inv(s.mappings, s.time) && s.numConnected <= s.maxClients
  {
  }

  lemma CleanTables(s: ServerState)
    requires AllClean(s.slots) && M.Inv(s.mappings, s.time) && !s.fault && s.numConnected == 0
    requires !s.running ==> s.maxClients == 0
    ensures Tables(s) && RecentlySent(s) && NoLoopback(s)
  {
    CleanSlotTable(s.slots, s.maxClients);
  }

  /** After a stop the tables are in order exactly when no loopback client was connected: the stop
      skips loopback slots but zeroes the count. */
  lemma StopTables(s: ServerState)
    requires Tables(s)
    ensures Tables(Stop(s)) <==> NoLoopback(s)
  {
    if s.running && !NoLoopback(s) {
      DisconnectFromTables(s, 0);
      var d := DisconnectFrom(s, 0);
      var i :| 0 <= i < |s.slots| && s.slots[i].loopback;
      assert SlotOk(s.slots[i]);
      assert Stop(s).slots[i] == d.slots[i] == s.slots[i];
    } else {
      StopClean(s);
      if !s.running {
        StoppedClean(s);
        assert Stop(s) == s;
      } else {
        CleanTables(Stop(s));
      }
    }
  }

  /** Starting; a server that runs is stopped first. */
  lemma StartTables(s: ServerState, max: nat, key: Key)
    requires Tables(s) && max <= |s.slots| && (s.running ==> NoLoopback(s))
    ensures Tables(Start(s, max, key)) && RecentlySent(Start(s, max, key)) && NoLoopback(Start(s, max, key))
  {
    hide M.Inv, Stop, Tables;
    StopClean(s);
    var idle := Stop(s);
    var r := Start(s, max, key);
    forall j | 0 <= j < |r.slots|
      ensures Clean(r.slots[j])
    {
      assert Clean(idle.slots[j]);
    }
    CleanTables(r);
  }

  // ----- connecting -----

  /** Slot i, just given to a client with a live mapping of its own. */
  lemma JoinTables(s: ServerState, i: nat, x: Slot)
    requires Tables(s) && i < s.maxClients && !s.slots[i].connected && s.numConnected < s.maxClients
    requires x.connected && !x.loopback && 0 <= x.encryptionIndex < s.mappings.num
    requires M.Live(s.mappings.entries[x.encryptionIndex], s.time)
    requires s.mappings.entries[x.encryptionIndex].address == x.address
    requires s.mappings.entries[x.encryptionIndex].timeout == x.timeout
    requires x.lastSend <= s.mappings.entries[x.encryptionIndex].lastAccess
    requires forall j :: 0 <= j < |s.slots| && s.slots[j].connected ==>
               s.slots[j].address != x.address && s.slots[j].clientId != x.clientId
    ensures Tables(Seat(s, i, x))
  {
    hide SlotOk, Clean;
    M.SetExpireInv(s.mappings, x.encryptionIndex, s.time);
    CountUpdate(s.slots, s.maxClients, i, x);
    var m := M.SetExpireTime(s.mappings, x.encryptionIndex, -1.0);
    var slots := s.slots[i := x];
    forall j | 0 <= j < |slots| && Remote(slots[j])
      ensures Keyed(slots[j], m, s.time)
    {
      if j != i {
        assert Keyed(s.slots[j], s.mappings, s.time);
      }
    }
    assert SlotOk(x) by { RemoteOk(x); }
  }

  lemma RemoteOk(x: Slot)
    requires Remote(x)
    ensures SlotOk(x)
  {
  }

  lemma ConnectTables(s: ServerState, i: nat, from: Address, id: uint64, e: nat, userData: UserData)
    requires Tables(s) && i < s.maxClients && !s.slots[i].connected && s.numConnected < s.maxClients
    requires e < s.mappings.num && M.Live(s.mappings.entries[e], s.time)
    requires s.mappings.entries[e].address == from && s.mappings.entries[e].lastAccess >= s.time
    requires forall j :: 0 <= j < |s.slots| && s.slots[j].connected ==>
               s.slots[j].address != from && s.slots[j].clientId != id
    ensures var r := ConnectClient(s, i, from, id, e, s.mappings.entries[e].timeout, userData);
            && Tables(r) && (RecentlySent(s) ==> RecentlySent(r))
            && Remote(r.slots[i]) && r.slots[i].address == from && r.slots[i].clientId == id
            && r.slots[i].userData == userData
            && (forall j :: 0 <= j < |s.slots| && j != i ==> r.slots[j] == s.slots[j])
            && r.maxClients == s.maxClients && r.running == s.running && |r.slots| == |s.slots|
  {
    var x := Taken(s, s.slots[i], from, id, e, s.mappings.entries[e].timeout, userData);
    FreeNotLoopback(s, i);
    JoinTables(s, i, x);
    hide Tables, SendClient, M.Live, Seat;
    var joined := Seat(s, i, x);
    SeatFrame(s, i, x);
    SendClientTables(joined, i, KeepAlivePacket(joined, i));
  }

  lemma SeatFrame(s: ServerState, i: nat, x: Slot)
    requires i < |s.slots| && 0 <= x.encryptionIndex < s.mappings.num
    ensures var r := Seat(s, i, x);
            && r.slots == s.slots[i := x] && r.time == s.time && r.running == s.running
            && (RecentlySent(s) && x.lastSend == s.time ==> RecentlySent(r))
  {
  }

  lemma FreeNotLoopback(s: ServerState, i: nat)
    requires Tables(s) && i < |s.slots| && !s.slots[i].connected
    ensures !s.slots[i].loopback && !s.slots[i].confirmed && s.slots[i].sequence == 0
    ensures Contents(s.slots[i].queue) == [] && s.slots[i].window == Fresh(|s.slots[i].window.received|)
  {
    assert SlotOk(s.slots[i]);
  }

  /** The tables do not depend on anything else. */
  lemma TraceTables(s: ServerState, r: ServerState)
    requires Tables(s)
    requires r.fault == s.fault && r.running == s.running && r.slots == s.slots && r.maxClients == s.maxClients
    requires r.numConnected == s.numConnected && r.mappings == s.mappings && r.time == s.time
    ensures Tables(r) && (RecentlySent(s) <==> RecentlySent(r))
  {
  }

  /** How a datagram's sender was looked up. */
  ghost predicate Routed(s: ServerState, from: Address, index: int, client: nat) {
    && client <= |s.slots|
    && (client < |s.slots| ==>
          client < s.maxClients && Remote(s.slots[client]) && s.slots[client].address == from
          && index == s.slots[client].encryptionIndex)
    && (client == |s.slots| && index != -1 ==>
          && 0 <= index < s.mappings.num <= |s.mappings.entries|
          && M.Live(s.mappings.entries[index], s.time)
          && s.mappings.entries[index].address == from
          && s.mappings.entries[index].lastAccess >= s.time)
  }

  lemma NotFoundByAddress(s: ServerState, from: Address, j: nat)
    requires Tables(s) && FindByAddress(s.slots, 0, s.maxClients, from) == s.maxClients
    requires j < |s.slots| && s.slots[j].connected && from != NoAddress
    ensures s.slots[j].address != from
  {
  }

  lemma RouteTables(s: ServerState, from: Address)
    requires Tables(s)
    ensures var (client, index, m) := Route(s, from);
            && Tables(s.(mappings := m))
            && Routed(s.(mappings := m), from, index, client)
            && (index != -1 ==> 0 <= index < m.num)
  {
    hide Tables, Routed, M.Find, FindByAddress;
    var i := FindByAddress(s.slots, 0, s.maxClients, from);
    if i < s.maxClients {
      KnownRoute(s, from, i);
      assert s.(mappings := s.mappings) == s;
    } else {
      UnknownRoute(s, from);
    }
  }

  lemma KnownRoute(s: ServerState, from: Address, i: nat)
    requires Tables(s) && i < s.maxClients && s.slots[i].connected && s.slots[i].address == from && from != NoAddress
    ensures Routed(s, from, s.slots[i].encryptionIndex, i)
    ensures 0 <= s.slots[i].encryptionIndex < s.mappings.num
  {
    hide Clean, M.Inv;
    assert SlotOk(s.slots[i]);
    assert Keyed(s.slots[i], s.mappings, s.time);
  }

  lemma UnknownRoute(s: ServerState, from: Address)
    requires Tables(s) && FindByAddress(s.slots, 0, s.maxClients, from) == s.maxClients
    ensures var (index, m) := M.Find(s.mappings, from, s.time);
            Tables(s.(mappings := m)) && Routed(s.(mappings := m), from, index, |s.slots|)
  {
    M.FindInv(s.mappings, from, s.time);
    hide SlotOk, M.Inv, M.Expired, FindByAddress;
    var (index, m) := M.Find(s.mappings, from, s.time);
    forall j | 0 <= j < |s.slots| && Remote(s.slots[j])
      ensures s.slots[j].encryptionIndex < m.num
      ensures m.entries[s.slots[j].encryptionIndex] == s.mappings.entries[s.slots[j].encryptionIndex]
    {
      assert Keyed(s.slots[j], s.mappings, s.time);
      if index != -1 {
        NotFoundByAddress(s, from, j);
      }
    }
    PutMappingsTables(s, m);
  }

  /** A request touches neither slots nor count; it changes the mappings by one add at most. */
  lemma RequestFrame(a: Aead, s: ServerState, from: Address, data: PrivateData)
    ensures var r := ProcessRequest(a, s, from, data);
            && r == s.(history := r.history, mappings := r.mappings, challengeSequence := r.challengeSequence,
                       globalSequence := r.globalSequence, trace := r.trace)
            && (r.mappings == s.mappings
                || (&& ReadPrivate(data).Some? && RequestAcceptable(s, from, ReadPrivate(data).value)
                    && r.mappings == M.Add(s.mappings, RequestMapping(s, from, ReadPrivate(data).value), s.time).1))
  {
    hide M.Add, H.FindOrAdd, ReadPrivate, RequestAcceptable, RequestMapping, SendChallenge, SendGlobal, RequestMac;
    var answer := ReadPrivate(data);
    if answer.Some? && RequestAcceptable(s, from, answer.value) {
      var t := answer.value;
      var noted := AskHistory(s, from, RequestMac(data)).1;
      var (added, mappings) := M.Add(s.mappings, RequestMapping(s, from, t), s.time);
      SendGlobalFrame(noted, from, Denied, t.serverToClientKey);
      ChallengeFrame(a, noted.(mappings := mappings), from, t);
    }
  }

  lemma SendGlobalFrame(s: ServerState, to: Address, p: Packet, key: Key)
    ensures var r := SendGlobal(s, to, p, key);
            r == s.(globalSequence := r.globalSequence, trace := r.trace)
  {
  }

  lemma ChallengeFrame(a: Aead, s: ServerState, from: Address, t: PrivateToken)
    ensures var r := SendChallenge(a, s, from, t);
            r == s.(challengeSequence := r.challengeSequence, globalSequence := r.globalSequence, trace := r.trace)
  {
    hide SealChallenge;
  }

  lemma RequestTables(a: Aead, s: ServerState, from: Address, data: PrivateData)
    requires Tables(s)
    ensures var r := ProcessRequest(a, s, from, data);
            Tables(r) && (RecentlySent(s) ==> RecentlySent(r)) && |r.slots| == |s.slots| && r.running == s.running
  {
    hide Tables, RecentlySent, M.Add, ProcessRequest, RequestAcceptable, RequestMapping;
    RequestFrame(a, s, from, data);
    var r := ProcessRequest(a, s, from, data);
    if r.mappings == s.mappings {
      TraceTables(s, r);
    } else {
      var t := ReadPrivate(data).value;
      AddMappingTables(s, from, t);
      TraceTables(s.(mappings := M.Add(s.mappings, RequestMapping(s, from, t), s.time).1), r);
    }
  }

  /** A mapping for an address without a client replaces no client's mapping. */
  lemma AddMappingTables(s: ServerState, from: Address, t: PrivateToken)
    requires Tables(s) && RequestAcceptable(s, from, t)
    ensures var r := s.(mappings := M.Add(s.mappings, RequestMapping(s, from, t), s.time).1);
            Tables(r) && (RecentlySent(s) <==> RecentlySent(r))
  {
    var e := RequestMapping(s, from, t);
    M.AddInv(s.mappings, e, s.time);
    hide M.Add, M.Inv, M.Expired, SlotOk;
    var m := M.Add(s.mappings, e, s.time).1;
    forall j | 0 <= j < |s.slots| && Remote(s.slots[j])
      ensures s.slots[j].encryptionIndex < m.num
      ensures m.entries[s.slots[j].encryptionIndex] == s.mappings.entries[s.slots[j].encryptionIndex]
    {
      assert Keyed(s.slots[j], s.mappings, s.time);
      if from != NoAddress {
        NotFoundByAddress(s, from, j);
      }
      assert M.Live(s.mappings.entries[s.slots[j].encryptionIndex], s.time);
    }
    PutMappingsTables(s, m);
  }

  lemma ResponseTables(a: Aead, s: ServerState, from: Address, sequence: uint64, data: ChallengeData, index: int,
                       client: nat)
    requires Tables(s) && Routed(s, from, index, client)
    ensures var r := ProcessResponse(a, s, from, sequence, data, index);
            Tables(r) && (RecentlySent(s) ==> RecentlySent(r)) && |r.slots| == |s.slots| && r.running == s.running
  {
    hide OpenChallenge, ConnectClient, RecentlySent, Tables, M.Live, FindById, FindByAddress, FindFree;
    var answer := OpenChallenge(a, data, sequence, s.challengeKey);
    if answer.Some? && index != -1 {
      var id := answer.value.clientId;
      if client < |s.slots| {
        ClientIsFound(s, from, index, client);
      } else if FindByAddress(s.slots, 0, s.maxClients, from) == s.maxClients
                && FindById(s.slots, 0, s.maxClients, id) == s.maxClients {
        if s.numConnected == s.maxClients {
          TraceTables(s, SendGlobal(s, from, Denied, s.mappings.entries[index].sendKey));
        } else {
          AdmitTables(s, from, id, index, answer.value.userData, client);
        }
      }
    }
  }

  lemma AdmitTables(s: ServerState, from: Address, id: uint64, index: int, userData: UserData, client: nat)
    requires Tables(s) && Routed(s, from, index, client) && index != -1 && client >= |s.slots|
    requires FindByAddress(s.slots, 0, s.maxClients, from) == s.maxClients
    requires FindById(s.slots, 0, s.maxClients, id) == s.maxClients && s.numConnected != s.maxClients
    ensures 0 <= index < s.mappings.num && FindFree(s.slots, 0, s.maxClients) < s.maxClients
    ensures var r := ConnectClient(s, FindFree(s.slots, 0, s.maxClients), from, id, index,
                                   s.mappings.entries[index].timeout, userData);
            Tables(r) && (RecentlySent(s) ==> RecentlySent(r)) && |r.slots| == |s.slots| && r.running == s.running
  {
    hide ConnectClient, RecentlySent, Tables, M.Live, FindById, FindByAddress, FindFree;
    FreeSlotExists(s);
    NobodyLikeIt(s, from, id, s.mappings.entries[index]);
    ConnectTables(s, FindFree(s.slots, 0, s.maxClients), from, id, index, userData);
  }

  lemma ClientIsFound(s: ServerState, from: Address, index: int, client: nat)
    requires Tables(s) && Routed(s, from, index, client) && client < |s.slots|
    ensures FindByAddress(s.slots, 0, s.maxClients, from) < s.maxClients
    ensures 0 <= index < s.mappings.num && from != NoAddress
  {
    assert Keyed(s.slots[client], s.mappings, s.time);
  }

  lemma NobodyLikeIt(s: ServerState, from: Address, id: uint64, e: M.Mapping)
    requires Tables(s) && M.Live(e, s.time) && e.address == from
    requires FindByAddress(s.slots, 0, s.maxClients, from) == s.maxClients
    requires FindById(s.slots, 0, s.maxClients, id) == s.maxClients
    ensures forall j :: 0 <= j < |s.slots| && s.slots[j].connected ==>
              s.slots[j].address != from && s.slots[j].clientId != id
  {
  }

  // ----- datagrams -----

  lemma HearTables(s: ServerState, i: nat)
    requires Tables(s) && i < |s.slots| && Remote(s.slots[i])
    ensures Tables(Hear(s, i)) && (RecentlySent(s) ==> RecentlySent(Hear(s, i)))
  {
    RemoteOk(s.slots[i].(lastReceive := s.time, confirmed := true));
    PutSlotTables(s, i, s.slots[i].(lastReceive := s.time, confirmed := true));
  }

  /** A queue operation on a connected slot. */
  lemma BoxTables(s: ServerState, i: nat, b: Inbox)
    requires Tables(s) && i < |s.slots| && s.slots[i].connected
    ensures Tables(WithBox(s, i, b)) && (RecentlySent(s) ==> RecentlySent(WithBox(s, i, b)))
  {
    var y := s.slots[i].(queue := b.queue);
    assert SlotOk(s.slots[i]);
    PutSlotTables(s, i, y);
    var r := PutSlot(s, i, y);
    assert RecentlySent(s) ==> RecentlySent(r);
    hide Tables, RecentlySent, SlotOk;
    TraceTables(r, WithBox(s, i, b));
  }

  lemma HandleTables(a: Aead, s: ServerState, from: Address, p: Packet, index: int, client: nat)
    requires Tables(s) && Routed(s, from, index, client)
    ensures var r := Handle(a, s, from, p, index, client);
            Tables(r) && (RecentlySent(s) ==> RecentlySent(r)) && |r.slots| == |s.slots| && r.running == s.running
  {
    hide Tables, RecentlySent, ProcessRequest, ProcessResponse, DisconnectInternal, M.Live;
    match p
    case Request(_, _, _, _, data) => RequestTables(a, s, from, data);
    case Response(n, data) => ResponseTables(a, s, from, n, data, index, client);
    case KeepAlive(_, _) => if client < |s.slots| { HearTables(s, client); }
    case Disconnect => if client < |s.slots| { DisconnectTables(s, client, false); }
    case _ =>
  }

  lemma DeliverTables(a: Aead, s: ServerState, from: Address, reading: Reading, index: int, client: nat)
    requires Tables(s) && Routed(s, from, index, client)
    ensures var r := Deliver(a, s, from, reading, index, client);
            Tables(r) && (RecentlySent(s) ==> RecentlySent(r)) && |r.slots| == |s.slots| && r.running == s.running
  {
    hide Tables, RecentlySent, Handle, Hear, Enqueue, M.Live;
    if reading.Some? {
      var (p, q) := reading.value;
      var (id, memory) := Alloc(s.memory);
      var seen := s.(memory := memory, trace := Then(s.trace, Processed(from, p, q, KeyAt(s, index))));
      TraceTables(s, seen);
      if p.Payload? && client < |s.slots| {
        HearTables(seen, client);
        HearFrame(seen, client);
        var heard := Hear(seen, client);
        BoxTables(heard, client, Enqueue(Box(heard, client), client, from, Item(id, p.data, q)));
      } else {
        HandleTables(a, seen, from, p, index, client);
        var done := Handle(a, seen, from, p, index, client);
        TraceTables(done, done.(memory := Free(done.memory, id)));
      }
    }
  }

  lemma HearFrame(s: ServerState, i: nat)
    requires i < |s.slots|
    ensures var r := Hear(s, i);
            && r == s.(slots := r.slots) && |r.slots| == |s.slots|
            && r.slots[i] == s.slots[i].(lastReceive := s.time, confirmed := true)
            && forall j :: 0 <= j < |s.slots| && j != i ==> r.slots[j] == s.slots[j]
  {
  }

  lemma PutWindowTables(s: ServerState, client: nat, w: Option<Window>, from: Address, index: int)
    requires Tables(s) && Routed(s, from, index, client)
    ensures var r := PutWindow(s, client, w);
            && Tables(r) && Routed(r, from, index, client)
            && (RecentlySent(s) ==> RecentlySent(r)) && r.running == s.running
  {
    if client < |s.slots| && w.Some? {
      var y := s.slots[client].(window := w.value);
      RemoteOk(y);
      PutSlotTables(s, client, y);
    }
  }

  lemma ReceiveTables(a: Aead, s: ServerState, d: Datagram, now: uint64)
    requires Tables(s)
    ensures var r := Receive(a, s, d, now); Tables(r) && |r.slots| == |s.slots| && r.running == s.running
  {
    hide Tables, RecentlySent, Route, Read, Deliver, PutWindow, Routed;
    if s.running && |d.data| > 1 {
      RouteTables(s, d.from);
      var (client, index, m) := Route(s, d.from);
      var routed := s.(mappings := m);
      if index == -1 && d.data[0] != 0 {
      } else {
        var key := if index == -1 then None else Some(m.entries[index].receiveKey);
        var (reading, w) := Read(a, s, d, now, client, key);
        PutWindowTables(routed, client, w, d.from, index);
        DeliverTables(a, PutWindow(routed, client, w), d.from, reading, index, client);
      }
    }
  }

  lemma {:induction false} ReceiveAllTables(a: Aead, s: ServerState, ds: seq<Datagram>, now: uint64)
    requires Tables(s)
    ensures var r := ReceiveAll(a, s, ds, now); Tables(r) && |r.slots| == |s.slots| && r.running == s.running
    decreases |ds|
  {
    hide Tables, Receive;
    if ds != [] {
      ReceiveTables(a, s, ds[0], now);
      ReceiveAllTables(a, Receive(a, s, ds[0], now), ds[1..], now);
    }
  }

  // ----- update -----

  ghost predicate SentUpTo(s: ServerState, i: nat) {
    forall j :: 0 <= j < i <= |s.slots| && Remote(s.slots[j]) ==> s.slots[j].lastSend + SEND_INTERVAL > s.time
  }

  lemma {:induction false} SendFromTables(s: ServerState, i: nat)
    requires Tables(s) && i <= s.maxClients && SentUpTo(s, i)
    ensures var r := SendFrom(s, i);
            && Tables(r) && SentUpTo(r, r.maxClients) && r.time == s.time && r.running == s.running
    decreases s.maxClients - i
  {
    hide Tables, SendClient;
    if i < s.maxClients {
      if KeepAliveDue(s, s.slots[i]) {
        SendClientTables(s, i, KeepAlivePacket(s, i));
        SendFromTables(SendClient(s, i, KeepAlivePacket(s, i)), i + 1);
      } else {
        SendFromTables(s, i + 1);
      }
    }
  }

  lemma SendPacketsTables(s: ServerState)
    requires Tables(s)
    ensures Tables(SendPackets(s)) && RecentlySent(SendPackets(s)) && |SendPackets(s).slots| == |s.slots|
  {
    if s.running {
      SendFromTables(s, 0);
      var r := SendFrom(s, 0);
      assert forall j :: 0 <= j < |r.slots| && Remote(r.slots[j]) ==> j < r.maxClients;
    }
  }

  lemma CheckTimeoutsTables(s: ServerState)
    requires Tables(s)
    ensures Tables(CheckTimeouts(s)) && (RecentlySent(s) ==> RecentlySent(CheckTimeouts(s)))
  {
    hide Tables, RecentlySent, DisconnectInternal;
    var i := FindTimedOut(s, 0, s.maxClients);
    if s.running && i < s.maxClients {
      DisconnectTables(s, i, false);
    }
  }

  lemma UpdateTables(a: Aead, s: ServerState, time: real, ds: seq<Datagram>, now: uint64)
    requires Tables(s) && RecentlySent(s) && OnTime(s, time)
    ensures Tables(Update(a, s, time, ds, now)) && RecentlySent(Update(a, s, time, ds, now))
  {
    hide Tables, RecentlySent, OnTime, ReceiveAll, SendPackets, CheckTimeouts;
    TickTables(s, time);
    ReceiveAllTables(a, s.(time := time), ds, now);
    SendPacketsTables(ReceiveAll(a, s.(time := time), ds, now));
    CheckTimeoutsTables(SendPackets(ReceiveAll(a, s.(time := time), ds, now)));
  }

  // ----- the application's calls -----

  lemma SendPayloadTables(s: ServerState, i: nat, data: bytes)
    requires Tables(s) && RecentlySent(s) && (s.running ==> i < |s.slots|)
    ensures Tables(SendPayload(s, i, data)) && RecentlySent(SendPayload(s, i, data))
  {
    hide Tables, SendClient, RecentlySent;
    if s.running && Remote(s.slots[i]) {
      SendRemotePayloadTables(s, i, data);
    } else if s.running && s.slots[i].connected {
      SendLoopbackPayloadTables(s, i, data);
    }
  }

  lemma SendRemotePayloadTables(s: ServerState, i: nat, data: bytes)
    requires Tables(s) && RecentlySent(s) && i < |s.slots| && Remote(s.slots[i])
    ensures Tables(SendPayload(s, i, data)) && RecentlySent(SendPayload(s, i, data))
  {
    hide Tables, SendClient;
    var first := if s.slots[i].confirmed then s else SendClient(s, i, KeepAlivePacket(s, i));
    if !s.slots[i].confirmed {
      SendClientTables(s, i, KeepAlivePacket(s, i));
    }
    SendClientTables(first, i, Payload(data));
  }

  lemma SendLoopbackPayloadTables(s: ServerState, i: nat, data: bytes)
    requires Tables(s) && RecentlySent(s) && i < |s.slots| && s.slots[i].connected && s.slots[i].loopback
    ensures Tables(SendPayload(s, i, data)) && RecentlySent(SendPayload(s, i, data))
  {
    var x := s.slots[i];
    assert SlotOk(x);
    LoopbackSlotTables(s, i, x.(sequence := Inc64(x.sequence), lastSend := s.time));
    hide Tables, RecentlySent, SlotOk;
    TraceTables(PutSlot(s, i, x.(sequence := Inc64(x.sequence), lastSend := s.time)), SendPayload(s, i, data));
  }

  /** Loopback slots have no part in the mappings. */
  lemma LoopbackSlotTables(s: ServerState, i: nat, y: Slot)
    requires Tables(s) && i < |s.slots| && s.slots[i].connected && y.connected && y.loopback && SlotOk(y)
    requires s.slots[i].loopback
    ensures Tables(PutSlot(s, i, y)) && (RecentlySent(s) ==> RecentlySent(PutSlot(s, i, y)))
  {
    hide SlotOk, M.Inv, M.Expired;
    CountUpdate(s.slots, s.maxClients, i, y);
  }

  lemma ConnectLoopbackTables(s: ServerState, i: nat, id: uint64, userData: UserData)
    requires Tables(s) && RecentlySent(s) && i < s.maxClients && !s.slots[i].connected
    ensures Tables(ConnectLoopback(s, i, id, userData)) && RecentlySent(ConnectLoopback(s, i, id, userData))
  {
    assert SlotOk(s.slots[i]);
    hide M.Inv, M.Expired;
    var r := ConnectLoopback(s, i, id, userData);
    CountUpdate(s.slots, s.maxClients, i, r.slots[i]);
  }

  lemma DisconnectLoopbackTables(s: ServerState, i: nat)
    requires Tables(s) && RecentlySent(s) && i < s.maxClients && s.slots[i].connected && s.slots[i].loopback
    ensures Tables(DisconnectLoopback(s, i)) && RecentlySent(DisconnectLoopback(s, i))
  {
    DrainLedger(Box(s, i), i);
    assert SlotOk(s.slots[i]);
    hide M.Inv, M.Expired, Drain, Contents;
    var r := DisconnectLoopback(s, i);
    CountUpdate(s.slots, s.maxClients, i, r.slots[i]);
    assert Clean(r.slots[i]);
  }

  lemma LoopbackPacketTables(s: ServerState, i: nat, data: bytes, sequence: uint64)
    requires Tables(s) && RecentlySent(s) && i < |s.slots| && s.slots[i].connected && s.slots[i].loopback
    ensures Tables(ProcessLoopback(s, i, data, sequence)) && RecentlySent(ProcessLoopback(s, i, data, sequence))
  {
    var y := s.slots[i].(lastReceive := s.time);
    assert SlotOk(s.slots[i]);
    LoopbackSlotTables(s, i, y);
    hide Tables, RecentlySent, Enqueue;
    var (id, memory) := Alloc(s.memory);
    BoxTables(PutSlot(s, i, y), i,
              Enqueue(Inbox(s.slots[i].queue, memory, s.trace), i, NoAddress, Item(id, data, sequence)));
  }

  // ----- whole runs -----

  /** What a run is asked to respect beyond the entry points' own asserts: updates are on time, and
      the server is stopped, or started again, only while no loopback client is connected. */
  ghost predicate Orderly(s: ServerState, e: Event) {
    && (e.UpdateEvent? ==> OnTime(s, e.time))
    && (e.StopEvent? || e.StartEvent? ==> NoLoopback(s))
  }

  lemma StepTables(a: Aead, s: ServerState, e: Event)
    requires Tables(s) && RecentlySent(s) && Enabled(s, e) && Orderly(s, e)
    ensures Tables(Step(a, s, e)) && RecentlySent(Step(a, s, e))
  {
    hide Tables, RecentlySent, OnTime, Start, Stop, Update, SendPayload, ReceivePayload, DisconnectInternal,
         DisconnectFrom, ConnectLoopback, DisconnectLoopback, ProcessLoopback;
    match e
    case StartEvent(max, key) => StartTables(s, max, key);
    case StopEvent => StopEventTables(s);
    case UpdateEvent(time, datagrams, now) => UpdateTables(a, s, time, datagrams, now);
    case SendEvent(i, data) => SendPayloadTables(s, i, data);
    case ReceiveEvent(i) => ReceivePayloadTables(s, i);
    case FreeEvent(id) => TraceTables(s, s.(memory := GiveBack(s.memory, id)));
    case DisconnectEvent(i) => if s.running && Remote(s.slots[i]) { DisconnectTables(s, i, true); }
    case DisconnectAllEvent => DisconnectFromTables(s, 0);
    case ConnectLoopbackEvent(i, id, userData) => ConnectLoopbackTables(s, i, id, userData);
    case DisconnectLoopbackEvent(i) => DisconnectLoopbackTables(s, i);
    case LoopbackPacketEvent(i, data, sequence) => LoopbackPacketTables(s, i, data, sequence);
  }

  lemma StopEventTables(s: ServerState)
    requires Tables(s) && RecentlySent(s) && NoLoopback(s)
    ensures Tables(Stop(s)) && RecentlySent(Stop(s))
  {
    if s.running {
      hide Stop;
      StopClean(s);
      StopTables(s);
      assert forall i :: 0 <= i < |Stop(s).slots| ==> Clean(Stop(s).slots[i]);
    }
  }

  lemma ReceivePayloadTables(s: ServerState, i: nat)
    requires Tables(s) && RecentlySent(s) && (s.running ==> i < |s.slots|)
    ensures Tables(ReceivePayload(s, i).1) && RecentlySent(ReceivePayload(s, i).1)
  {
    hide Tables, RecentlySent, Dequeue;
    if s.running && s.slots[i].connected {
      BoxTables(s, i, Dequeue(Box(s, i), i).1);
    }
  }

  ghost predicate OrderlyRun(a: Aead, s: ServerState, es: seq<Event>)
    decreases |es|
  {
    es == [] || (Enabled(s, es[0]) && Orderly(s, es[0]) && OrderlyRun(a, Step(a, s, es[0]), es[1..]))
  }

  ghost function Run(a: Aead, s: ServerState, es: seq<Event>): ServerState
    requires OrderlyRun(a, s, es)
    decreases |es|
  {
    if es == [] then s else Run(a, Step(a, s, es[0]), es[1..])
  }

  lemma {:induction false} RunTables(a: Aead, s: ServerState, es: seq<Event>)
    requires Tables(s) && RecentlySent(s) && OrderlyRun(a, s, es)
    ensures Tables(Run(a, s, es)) && RecentlySent(Run(a, s, es))
    decreases |es|
  {
    hide Tables, RecentlySent, Step, Orderly, Enabled;
    if es != [] {
      StepTables(a, s, es[0]);
      RunTables(a, Step(a, s, es[0]), es[1..]);
    }
  }
}
