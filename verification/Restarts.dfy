/** Two runs in which a server seals two packets with one key and sequence number: the first
    handshake after a restart, and a second connection with the token of a client that was dropped. */
module Restarts {
  import opened Types
  import opened Crypto
  import opened Tokens
  import opened Packets
  import opened Traces
  import opened Inbox
  import opened ServerTables
  import opened EndToEnd
  import opened Handshake
  import C = Client
  import S = Server
  import M = Mappings
  import H = TokenHistory

  /** The client that holds the token sends its request. */
  function Asking(a: Aead, c: C.Client, from: Address, time: real, now: uint64): S.Event {
    S.UpdateEvent(time, [S.Datagram(from, RequestWire(a, c))], now)
  }

  /** The client that took over the server's challenge answers it. */
  function Answering(a: Aead, d: C.Client, from: Address, time: real, now: uint64): S.Event {
    S.UpdateEvent(time, [S.Datagram(from, ResponseWire(a, d))], now)
  }

  /** A client of the token that holds a challenge sealed under the server's challenge key. */
  ghost predicate Took(a: Aead, d: C.Client, k: Issue, challengeKey: Key)
    requires Lawful(a)
  {
    && d.token.protocolId == k.protocolId && d.readKey == k.serverToClientKey && d.writeKey == k.clientToServerKey
    && d.challengeData == SealChallenge(a, ChallengeToken(k.clientId, k.userData), d.challengeSequence, challengeKey)
  }

  /** The server the token was made for. */
  ghost predicate Serves(s: S.ServerState, k: Issue) {
    && !s.ignoreRequests && !s.ignoreResponses && s.protocolId == k.protocolId && s.privateKey == k.privateKey
    && S.Whitelisted(s.address, k.servers) && k.timeoutSeconds >= 0
  }

  /** A handshake from request to seat, as the server sees it. */
  lemma Seats(a: Aead, s: S.ServerState, k: Issue, from: Address, c: C.Client, d: C.Client, u1: real, u2: real, now: uint64)
    requires Lawful(a) && k.Ok() && Aims(a, c, k) && Took(a, d, k, s.challengeKey) && RecentlySent(s) && Tables(s)
    requires now < Token(a, k).expireTimestamp && Welcomes(a, s.(time := u1), k, from)
    requires OnTime(S.Update(a, s, u1, [S.Datagram(from, RequestWire(a, c))], now), u2)
    requires u2 <= u1 + k.timeoutSeconds as real
    ensures var s1 := S.Update(a, s, u1, [S.Datagram(from, RequestWire(a, c))], now);
            var s2 := S.Update(a, s1, u2, [S.Datagram(from, ResponseWire(a, d))], now);
            var i := S.FindFree(s1.slots, 0, s1.maxClients);
            && SealsSince(s.trace, s1.trace, Sealing(k.serverToClientKey, s.globalSequence))
            && SealsSince(s1.trace, s2.trace, Sealing(k.serverToClientKey, 0))
            && SameOffice(s, s2) && s2.running && s2.challengeKey == s.challengeKey
            && s2.history == H.FindOrAdd(s.history, from, TokenMac(a, k), u1).1
            && i < |s2.slots| && S.Remote(s2.slots[i]) && s2.slots[i].address == from && NobodyElse(s2, k, from, i)
            && Tables(s1) && RecentlySent(s1) && NoNewcomers(s, s1)
  {
    RequestUpdate(a, c, s, k, from, u1, now);
    var s1 := S.Update(a, s, u1, [S.Datagram(from, RequestWire(a, c))], now);
    assert Tables(s1) by {
      GrantingTables(a, s1, k, from, u1);
    }
    hide Lawful, Tables, RecentlySent, S.Update, Token, Welcomes, OnTime, Granting, RequestWire, ResponseWire, SealsSince,
         H.FindOrAdd, TokenMac, SealChallenge, S.FindFree, NobodyElse, Occurs, NoNewcomers;
    GrantWaits(a, s1, k, from, u1, u2);
    ResponseUpdate(a, d, s1, k, from, u1, u2, now);
  }

  lemma GrantingTables(a: Aead, s: S.ServerState, k: Issue, from: Address, made: real)
    requires Granting(a, s, k, from, made)
    ensures Tables(s)
  {
    hide Tables;
  }

  lemma Repeats(t: Trace, u: Trace, v: Trace, x: Sealing)
    requires SealsSince(t, u, x) && SealsSince(u, v, x)
    ensures !AllDistinct(Sealings(v))
  {
    hide Sealings;
    var i :| |Sealings(t)| <= i < |Sealings(u)| && Sealings(u)[i] == x;
    var j :| |Sealings(u)| <= j < |Sealings(v)| && Sealings(v)[j] == x;
    assert Sealings(v)[i] == x;
  }

  // ----- dropping clients -----

  /** What dropping clients leaves alone. */
  ghost predicate OnlyDrops(s: S.ServerState, r: S.ServerState) {
    && SameOffice(s, r) && r.running == s.running && r.time == s.time && r.challengeKey == s.challengeKey
    && r.history == s.history && |r.mappings.entries| == |s.mappings.entries| && |r.slots| == |s.slots|
    && Extends(s.trace, r.trace)
  }

  lemma DropsTwice(s: S.ServerState, r: S.ServerState, u: S.ServerState)
    requires OnlyDrops(s, r) && OnlyDrops(r, u)
    ensures OnlyDrops(s, u)
  {
    ExtendsTwice(s.trace, r.trace, u.trace);
    hide Extends;
  }

  lemma SendDrops(s: S.ServerState, i: nat)
    requires i < |s.slots|
    ensures OnlyDrops(s, S.SendClient(s, i, Disconnect))
  {
    FaultDrops(s);
    var r := S.SendClient(s, i, Disconnect);
    if r.trace != s.trace {
      ExtendsByOne(s.trace, s.trace, r.trace.last);
    }
    hide Extends, M.Touch;
  }

  lemma {:induction false} SendDisconnectsDrop(s: S.ServerState, i: nat, n: nat)
    requires i < |s.slots|
    ensures OnlyDrops(s, S.SendDisconnects(s, i, n))
    decreases n
  {
    if n > 0 {
      var r := S.SendClient(s, i, Disconnect);
      hide OnlyDrops, S.SendClient;
      SendDrops(s, i);
      SendDisconnectsDrop(r, i, n - 1);
      DropsTwice(s, r, S.SendDisconnects(r, i, n - 1));
    }
  }

  lemma DisconnectDrops(s: S.ServerState, i: nat)
    requires i < |s.slots|
    ensures OnlyDrops(s, S.DisconnectInternal(s, i, true))
  {
    SendDisconnectsDrop(s, i, NUM_DISCONNECT_PACKETS);
    var d := S.SendDisconnects(s, i, NUM_DISCONNECT_PACKETS);
    FaultDrops(s);
    hide S.SendDisconnects, OnlyDrops, S.Release;
    ReleaseDrops(d, i);
    DropsTwice(s, d, S.Release(d, i));
  }

  lemma ReleaseDrops(s: S.ServerState, i: nat)
    requires i < |s.slots|
    ensures OnlyDrops(s, S.Release(s, i))
  {
    PopAllExtends(S.Box(s, i), i);
    ExtendsByOne(s.trace, Drain(S.Box(s, i), i).trace, Released(i));
    hide Extends, PopAll, M.Remove;
  }

  lemma FaultDrops(s: S.ServerState)
    ensures OnlyDrops(s, s) && OnlyDrops(s, s.(fault := true))
  {
  }

  lemma {:induction false} DisconnectFromDrops(s: S.ServerState, i: nat)
    requires i <= s.maxClients
    ensures OnlyDrops(s, S.DisconnectFrom(s, i))
    decreases s.maxClients - i
  {
    FaultDrops(s);
    hide OnlyDrops, S.DisconnectInternal;
    if i < s.maxClients {
      DisconnectDrops(s, i);
      var r := if S.Remote(s.slots[i]) then S.DisconnectInternal(s, i, true) else s;
      DisconnectFromDrops(r, i + 1);
      DropsTwice(s, r, S.DisconnectFrom(r, i + 1));
    }
  }

  // ----- a restart -----

  /** A server that was stopped and started again has forgotten everything but what it was created
      with; its global sequence starts at 0. */
  lemma StartsAfresh(s: S.ServerState, max: nat, key: Key)
    requires Tables(s) && s.running && NoLoopback(s) && 0 < max <= |s.slots|
    ensures var idle := S.Stop(s);
            var r := S.Start(idle, max, key);
            && Tables(idle) && RecentlySent(idle) && NoLoopback(idle) && |idle.slots| == |s.slots|
            && Tables(r) && RecentlySent(r) && r.running && r.globalSequence == 0 && r.challengeKey == key
            && SameOffice(s, r) && r.time == s.time && r.maxClients == max && r.numConnected == 0
            && r.history == H.Reset(|s.history|) && r.mappings == M.Reset(|s.mappings.entries|)
            && (forall i :: 0 <= i < |r.slots| ==> !r.slots[i].connected)
  {
    StopClean(s);
    StopTables(s);
    DisconnectFromDrops(s, 0);
    var idle := S.Stop(s);
    assert S.Stop(idle) == idle;
    StopShape(s);
    hide Tables, RecentlySent, S.Stop, Clean;
    forall i | 0 <= i < |idle.slots|
      ensures !idle.slots[i].connected && !idle.slots[i].loopback
    {
      assert Clean(idle.slots[i]);
      CleanIsFree(idle.slots[i]);
    }
    StartTables(idle, max, key);
  }

  lemma CleanIsFree(x: S.Slot)
    requires Clean(x)
    ensures !x.connected && !x.loopback
  {
  }

  lemma StopShape(s: S.ServerState)
    requires s.running && OnlyDrops(s, S.DisconnectFrom(s, 0))
    ensures var r := S.Stop(s);
            && SameOffice(s, r) && r.globalSequence == 0 && r.history == H.Reset(|s.history|) && r.time == s.time
            && r.mappings == M.Reset(|s.mappings.entries|)
  {
    hide S.DisconnectFrom, Extends;
  }

  lemma FreshWelcomes(a: Aead, s: S.ServerState, k: Issue, from: Address)
    requires Lawful(a) && k.Ok() && Tables(s) && s.running && Serves(s, k) && from != NoAddress
    requires TokenMac(a, k) != ZERO_MAC && s.mappings.entries != [] && s.numConnected == 0 < s.maxClients
    requires s.history == H.Reset(|s.history|) && s.mappings == M.Reset(|s.mappings.entries|)
    requires forall i :: 0 <= i < |s.slots| ==> !s.slots[i].connected
    ensures Welcomes(a, s, k, from)
  {
    hide Lawful, Tables, TokenMac, S.Whitelisted, H.LastMatch;
    assert H.LastMatch(s.history, TokenMac(a, k), |s.history|) == -1;
    assert !M.Live(s.mappings.entries[0], s.time);
  }

  /** The first event of a run and the rest. */
  lemma RunsOn(a: Aead, s: S.ServerState, e: S.Event, es: seq<S.Event>)
    requires S.Enabled(s, e) && Orderly(s, e) && OrderlyRun(a, S.Step(a, s, e), es)
    ensures OrderlyRun(a, s, [e] + es) && Run(a, s, [e] + es) == Run(a, S.Step(a, s, e), es)
  {
    assert ([e] + es)[1..] == es;
  }

  /** A server as it is after a restart. */
  ghost predicate Afresh(s: S.ServerState) {
    && Tables(s) && RecentlySent(s) && s.running && s.globalSequence == 0 && s.numConnected == 0 < s.maxClients
    && s.history == H.Reset(|s.history|) && s.mappings == M.Reset(|s.mappings.entries|) && s.mappings.entries != []
    && (forall i :: 0 <= i < |s.slots| ==> !s.slots[i].connected)
  }

  lemma AfreshWelcomes(a: Aead, s: S.ServerState, k: Issue, from: Address, c: C.Client, u1: real, u2: real, now: uint64)
    requires Lawful(a) && k.Ok() && Afresh(s) && Serves(s, k) && from != NoAddress && TokenMac(a, k) != ZERO_MAC
    requires Aims(a, c, k) && now < Token(a, k).expireTimestamp && s.time <= u1 <= u2
    ensures OnTime(s, u1) && Welcomes(a, s.(time := u1), k, from)
    ensures OnTime(S.Update(a, s, u1, [S.Datagram(from, RequestWire(a, c))], now), u2)
  {
    hide Lawful, Tables, RecentlySent, S.Update, Token, TokenMac, H.Reset, M.Reset, Welcomes, SealsSince, Aims, RequestWire,
         Granting, Occurs, SameOffice, H.FindOrAdd, Serves;
    assert OnTime(s, u1);
    TickTables(s, u1);
    ServesAnytime(s, u1, k);
    FreshWelcomes(a, s.(time := u1), k, from);
    RequestUpdate(a, c, s, k, from, u1, now);
  }

  lemma ServesAnytime(s: S.ServerState, time: real, k: Issue)
    requires Serves(s, k)
    ensures Serves(s.(time := time), k)
  {
    hide S.Whitelisted;
  }

  /** The first handshake after a restart. */
  lemma AfreshRepeats(a: Aead, s: S.ServerState, k: Issue, from: Address, c: C.Client, d: C.Client, u1: real, u2: real,
                      now: uint64)
    requires Lawful(a) && k.Ok() && Afresh(s) && Serves(s, k) && from != NoAddress && TokenMac(a, k) != ZERO_MAC
    requires Aims(a, c, k) && Took(a, d, k, s.challengeKey) && now < Token(a, k).expireTimestamp
    requires s.time <= u1 <= u2 <= u1 + k.timeoutSeconds as real
    ensures var es := [Asking(a, c, from, u1, now)] + ([Answering(a, d, from, u2, now)] + []);
            OrderlyRun(a, s, es) && !AllDistinct(Sealings(Run(a, s, es).trace))
  {
    AfreshWelcomes(a, s, k, from, c, u1, u2, now);
    var s1 := S.Update(a, s, u1, [S.Datagram(from, RequestWire(a, c))], now);
    hide Lawful, Tables, RecentlySent, S.Update, Token, TokenMac, H.Reset, M.Reset, Welcomes, OnTime, SealsSince,
         H.FindOrAdd, Took, Aims, RequestWire, ResponseWire, NobodyElse, S.FindFree, AllDistinct, Sealings, Granting,
         SameOffice, NoNewcomers, Serves;
    Seats(a, s, k, from, c, d, u1, u2, now);
    var s2 := S.Update(a, s1, u2, [S.Datagram(from, ResponseWire(a, d))], now);
    Repeats(s.trace, s1.trace, s2.trace, Sealing(k.serverToClientKey, 0));
    RunsOn(a, s1, Answering(a, d, from, u2, now), []);
    RunsOn(a, s, Asking(a, c, from, u1, now), [Answering(a, d, from, u2, now)] + []);
  }

  /** Stopped and started again, a server seals the challenge and the keep-alive of the first client
      it takes in with one key and one sequence number, although the key was never used before: its
      global sequence and the client's both start at 0. */
  lemma RestartRepeats(a: Aead, s: S.ServerState, max: nat, key: Key, k: Issue, from: Address, c: C.Client, d: C.Client,
                       u1: real, u2: real, now: uint64)
    requires Lawful(a) && k.Ok() && Tables(s) && s.running && NoLoopback(s) && 0 < max <= |s.slots|
    requires Serves(s, k) && from != NoAddress && s.mappings.entries != [] && TokenMac(a, k) != ZERO_MAC
    requires Aims(a, c, k) && Took(a, d, k, key) && now < Token(a, k).expireTimestamp
    requires s.time <= u1 <= u2 <= u1 + k.timeoutSeconds as real
    ensures var es := [S.StopEvent] + ([S.StartEvent(max, key)]
                      + ([Asking(a, c, from, u1, now)] + ([Answering(a, d, from, u2, now)] + [])));
            OrderlyRun(a, s, es) && !AllDistinct(Sealings(Run(a, s, es).trace))
  {
    StartsAfresh(s, max, key);
    var idle := S.Stop(s);
    var r := S.Start(idle, max, key);
    assert Afresh(r) && Serves(r, k);
    hide Lawful, Tables, RecentlySent, S.Stop, S.Start, Token, TokenMac, Took, Aims, S.Update, OrderlyRun, Run, Afresh,
         Asking, Answering, AllDistinct, Sealings, Serves;
    AfreshRepeats(a, r, k, from, c, d, u1, u2, now);
    var rest := [Asking(a, c, from, u1, now)] + ([Answering(a, d, from, u2, now)] + []);
    RunsOn(a, idle, S.StartEvent(max, key), rest);
    RunsOn(a, s, S.StopEvent, [S.StartEvent(max, key)] + rest);
  }

  // ----- a second connection -----

  lemma RemoveFrees(m: M.Manager, x: Address, time: real, e: nat)
    requires e < m.num <= |m.entries| && m.entries[e].address == x != NoAddress
    ensures exists i :: 0 <= i < |m.entries| && M.Remove(m, x, time).1.entries[i].address == NoAddress
  {
    var i := M.ScanAddress(m.entries, 0, m.num, x);
    assert M.Remove(m, x, time).1.entries[i].address == NoAddress;
  }

  /** A client that is dropped leaves room in the mapping table. */
  lemma DropLeavesRoom(s: S.ServerState, i: nat, from: Address, time: real)
    requires Tables(s) && i < |s.slots| && S.Remote(s.slots[i])
    ensures HasRoom(S.DisconnectInternal(s, i, true).mappings, from, time)
  {
    RemoteRuns(s, i);
    SendDisconnectsTables(s, i, NUM_DISCONNECT_PACKETS);
    var d := S.SendDisconnects(s, i, NUM_DISCONNECT_PACKETS);
    assert Keyed(d.slots[i], d.mappings, d.time);
    RemoveFrees(d.mappings, d.slots[i].address, d.time, d.slots[i].encryptionIndex);
    var r := S.DisconnectInternal(s, i, true);
    assert r.mappings == M.Remove(d.mappings, d.slots[i].address, d.time).1;
    hide Tables, S.SendDisconnects, M.Remove;
    var e :| 0 <= e < |r.mappings.entries| && r.mappings.entries[e].address == NoAddress;
    assert !M.Live(r.mappings.entries[e], time);
  }

  /** The history lets a token through again from the address it has just let it through from. */
  lemma AskedAgain(es: seq<H.Entry>, x: Address, mac: Mac, time: real, later: real)
    requires |es| > 0 && x != NoAddress && H.FindOrAdd(es, x, mac, time).0
    ensures H.FindOrAdd(H.FindOrAdd(es, x, mac, time).1, x, mac, later).0
  {
    var once := H.FindOrAdd(es, x, mac, time).1;
    var m := H.LastMatch(es, mac, |es|);
    if m == -1 {
      var o := H.Oldest(es, |es|);
      assert once[o].mac == mac;
      assert H.LastMatch(once, mac, |once|) == o;
    }
  }

  /** After its client was dropped a server takes the same token again from the same address. */
  lemma WelcomesAgain(a: Aead, s: S.ServerState, k: Issue, from: Address, i: nat, time: real)
    requires Lawful(a) && k.Ok() && Tables(s) && RecentlySent(s) && s.running && Serves(s, k) && from != NoAddress
    requires i < |s.slots| && S.Remote(s.slots[i]) && NobodyElse(s, k, from, i)
    requires H.FindOrAdd(s.history, from, TokenMac(a, k), time).0
    requires OnTime(S.DisconnectClient(s, i), time)
    ensures var r := S.DisconnectClient(s, i);
            Welcomes(a, r.(time := time), k, from) && Tables(r) && RecentlySent(r) && SameOffice(s, r)
            && r.challengeKey == s.challengeKey
  {
    hide Lawful, Tables, RecentlySent, OnTime, TokenMac, S.DisconnectInternal, HasRoom, S.Whitelisted, H.FindOrAdd,
         NobodyElse, Welcomes, S.FindFree;
    RemoteRuns(s, i);
    DisconnectTables(s, i, true);
    DropLeavesRoom(s, i, from, time);
    var r := S.DisconnectInternal(s, i, true);
    TickTables(r, time);
    FreeSlotExists(r);
    SlotIsFree(r, i);
    NobodyLeft(s, r, k, from, i);
    WelcomesWhen(a, r.(time := time), k, from);
  }

  lemma SlotIsFree(s: S.ServerState, i: nat)
    requires i < s.maxClients && !s.slots[i].connected
    ensures S.FindFree(s.slots, 0, s.maxClients) < s.maxClients
  {
  }

  lemma NobodyLeft(s: S.ServerState, r: S.ServerState, k: Issue, from: Address, i: nat)
    requires NobodyElse(s, k, from, i) && i < |s.slots| == |r.slots| && !r.slots[i].connected
    requires forall j :: 0 <= j < |s.slots| && j != i ==> r.slots[j] == s.slots[j]
    ensures NobodyLike(r, k, from)
  {
  }

  lemma WelcomesWhen(a: Aead, s: S.ServerState, k: Issue, from: Address)
    requires Lawful(a) && k.Ok() && Tables(s) && s.running && Serves(s, k) && from != NoAddress
    requires NobodyLike(s, k, from) && s.numConnected < s.maxClients
    requires H.FindOrAdd(s.history, from, TokenMac(a, k), s.time).0 && HasRoom(s.mappings, from, s.time)
    ensures Welcomes(a, s, k, from)
  {
    hide Lawful, Tables, TokenMac, HasRoom, S.Whitelisted, H.FindOrAdd;
  }

  /** The server after a first connection: its client seated, and then dropped. */
  ghost predicate SeatedOnce(a: Aead, s: S.ServerState, r: S.ServerState, k: Issue, from: Address, i: nat)
    requires Lawful(a) && k.Ok()
  {
    && Tables(r) && RecentlySent(r) && r.running && SameOffice(s, r) && r.challengeKey == s.challengeKey
    && i < |r.slots| && S.Remote(r.slots[i]) && r.slots[i].address == from && NobodyElse(r, k, from, i)
    && (forall time: real :: H.FindOrAdd(r.history, from, TokenMac(a, k), time).0)
    && Sealing(k.serverToClientKey, 0) in Sealings(r.trace)
  }

  lemma FirstConnection(a: Aead, s: S.ServerState, k: Issue, from: Address, c: C.Client, d: C.Client, u1: real, u2: real,
                        now: uint64)
    requires Lawful(a) && k.Ok() && Aims(a, c, k) && Took(a, d, k, s.challengeKey) && RecentlySent(s) && Tables(s)
    requires now < Token(a, k).expireTimestamp && OnTime(s, u1) && Welcomes(a, s.(time := u1), k, from)
    requires OnTime(S.Update(a, s, u1, [S.Datagram(from, RequestWire(a, c))], now), u2)
    requires u2 <= u1 + k.timeoutSeconds as real
    ensures var s1 := S.Update(a, s, u1, [S.Datagram(from, RequestWire(a, c))], now);
            var s2 := S.Update(a, s1, u2, [S.Datagram(from, ResponseWire(a, d))], now);
            SeatedOnce(a, s, s2, k, from, S.FindFree(s1.slots, 0, s1.maxClients))
  {
    hide Lawful, Tables, RecentlySent, S.Update, Token, Welcomes, OnTime, RequestWire, ResponseWire, H.FindOrAdd, TokenMac,
         SealChallenge, S.FindFree, NobodyElse, SameOffice, Sealings, Took, Aims, NoNewcomers, SealsSince;
    var s1 := S.Update(a, s, u1, [S.Datagram(from, RequestWire(a, c))], now);
    var s2 := S.Update(a, s1, u2, [S.Datagram(from, ResponseWire(a, d))], now);
    WelcomeAsks(a, s.(time := u1), k, from);
    forall time: real
      ensures H.FindOrAdd(H.FindOrAdd(s.history, from, TokenMac(a, k), u1).1, from, TokenMac(a, k), time).0
    {
      AskedAgain(s.history, from, TokenMac(a, k), u1, time);
    }
    Seats(a, s, k, from, c, d, u1, u2, now);
    UpdateTables(a, s1, u2, [S.Datagram(from, ResponseWire(a, d))], now);
    WasSealed(s1.trace, s2.trace, Sealing(k.serverToClientKey, 0));
  }

  lemma WasSealed(t: Trace, u: Trace, x: Sealing)
    requires SealsSince(t, u, x)
    ensures x in Sealings(u)
  {
    hide Sealings;
  }

  lemma WelcomeAsks(a: Aead, s: S.ServerState, k: Issue, from: Address)
    requires Lawful(a) && k.Ok() && Welcomes(a, s, k, from)
    ensures from != NoAddress && H.FindOrAdd(s.history, from, TokenMac(a, k), s.time).0 && Serves(s, k)
  {
    hide Lawful, Tables, TokenMac, H.FindOrAdd, S.Whitelisted, HasRoom;
  }

  lemma SealedOnceMore(t: Trace, u: Trace, v: Trace, x: Sealing)
    requires x in Sealings(t) && Sealings(t) <= Sealings(u) && SealsSince(u, v, x)
    ensures !AllDistinct(Sealings(v))
  {
    hide Sealings;
    var i :| 0 <= i < |Sealings(t)| && Sealings(t)[i] == x;
    var j :| |Sealings(u)| <= j < |Sealings(v)| && Sealings(v)[j] == x;
    assert Sealings(v)[i] == x;
  }

  lemma SecondConnection(a: Aead, o: S.ServerState, s: S.ServerState, k: Issue, from: Address, i: nat, c: C.Client,
                         d: C.Client, v1: real, v2: real, now: uint64)
    requires Lawful(a) && k.Ok() && Aims(a, c, k) && Took(a, d, k, o.challengeKey) && now < Token(a, k).expireTimestamp
    requires SeatedOnce(a, o, s, k, from, i) && Serves(o, k) && from != NoAddress && i < s.maxClients
    requires var r := S.DisconnectClient(s, i);
             OnTime(r, v1) && OnTime(S.Update(a, r, v1, [S.Datagram(from, RequestWire(a, c))], now), v2)
    requires v2 <= v1 + k.timeoutSeconds as real
    ensures var es := [S.DisconnectEvent(i)] + ([Asking(a, c, from, v1, now)] + ([Answering(a, d, from, v2, now)] + []));
            OrderlyRun(a, s, es) && !AllDistinct(Sealings(Run(a, s, es).trace))
  {
    hide Lawful, Tables, RecentlySent, S.Update, Token, TokenMac, Welcomes, OnTime, SealsSince, H.FindOrAdd, Took, Aims,
         RequestWire, ResponseWire, NobodyElse, S.FindFree, AllDistinct, Sealings, NoNewcomers, S.DisconnectInternal;
    var r := S.DisconnectClient(s, i);
    WelcomesAgain(a, s, k, from, i, v1);
    DisconnectDrops(s, i);
    SealingsExtend(s.trace, r.trace);
    hide OnlyDrops;
    var s3 := S.Update(a, r, v1, [S.Datagram(from, RequestWire(a, c))], now);
    Seats(a, r, k, from, c, d, v1, v2, now);
    var s4 := S.Update(a, s3, v2, [S.Datagram(from, ResponseWire(a, d))], now);
    SealsExtend(r.trace, s3.trace, Sealing(k.serverToClientKey, r.globalSequence));
    SealedOnceMore(s.trace, s3.trace, s4.trace, Sealing(k.serverToClientKey, 0));
    RunsOn(a, s3, Answering(a, d, from, v2, now), []);
    RunsOn(a, r, Asking(a, c, from, v1, now), [Answering(a, d, from, v2, now)] + []);
    RunsOn(a, s, S.DisconnectEvent(i), [Asking(a, c, from, v1, now)] + ([Answering(a, d, from, v2, now)] + []));
  }

  lemma SealsExtend(t: Trace, u: Trace, x: Sealing)
    requires SealsSince(t, u, x)
    ensures Sealings(t) <= Sealings(u)
  {
    hide Sealings;
  }

  /** A client connects, is dropped by the server, and connects again from its address with its
      token: both connections begin with packet number 0 under the one key. */
  lemma ReconnectRepeats(a: Aead, s: S.ServerState, k: Issue, from: Address, c: C.Client, d: C.Client, e: C.Client, u1: real,
                         u2: real, v1: real, v2: real, i: nat, now: uint64)
    requires Lawful(a) && k.Ok() && Tables(s) && RecentlySent(s) && Aims(a, c, k) && now < Token(a, k).expireTimestamp
    requires Took(a, d, k, s.challengeKey) && Took(a, e, k, s.challengeKey)
    requires OnTime(s, u1) && Welcomes(a, s.(time := u1), k, from)
    requires u2 <= u1 + k.timeoutSeconds as real && v2 <= v1 + k.timeoutSeconds as real
    requires var s1 := S.Update(a, s, u1, [S.Datagram(from, RequestWire(a, c))], now);
             var s2 := S.Update(a, s1, u2, [S.Datagram(from, ResponseWire(a, d))], now);
             && OnTime(s1, u2) && i == S.FindFree(s1.slots, 0, s1.maxClients) && i < |s2.slots|
             && var r := S.DisconnectClient(s2, i);
             OnTime(r, v1) && OnTime(S.Update(a, r, v1, [S.Datagram(from, RequestWire(a, c))], now), v2)
    ensures var es := [Asking(a, c, from, u1, now)] + ([Answering(a, d, from, u2, now)]
                      + ([S.DisconnectEvent(i)] + ([Asking(a, c, from, v1, now)] + ([Answering(a, e, from, v2, now)] + []))));
            OrderlyRun(a, s, es) && !AllDistinct(Sealings(Run(a, s, es).trace))
  {
    hide Lawful, Tables, RecentlySent, S.Update, Token, TokenMac, Welcomes, OnTime, H.FindOrAdd, Took, Aims, RequestWire,
         ResponseWire, NobodyElse, S.FindFree, AllDistinct, Sealings, S.DisconnectClient, Serves;
    FirstConnection(a, s, k, from, c, d, u1, u2, now);
    WelcomeAsks(a, s.(time := u1), k, from);
    var s1 := S.Update(a, s, u1, [S.Datagram(from, RequestWire(a, c))], now);
    var s2 := S.Update(a, s1, u2, [S.Datagram(from, ResponseWire(a, d))], now);
    RemoteRuns(s2, i);
    ServesAnytime(s.(time := u1), s.time, k);
    assert s.(time := u1).(time := s.time) == s;
    hide SeatedOnce, OrderlyRun, Run;
    SecondConnection(a, s, s2, k, from, i, c, e, v1, v2, now);
    var rest := [S.DisconnectEvent(i)] + ([Asking(a, c, from, v1, now)] + ([Answering(a, e, from, v2, now)] + []));
    RunsOn(a, s1, Answering(a, d, from, u2, now), rest);
    RunsOn(a, s, Asking(a, c, from, u1, now), [Answering(a, d, from, u2, now)] + rest);
  }
}
