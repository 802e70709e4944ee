/** Where a connected client's identity comes from: a challenge token this server sealed for a
    request it granted.  The AEAD is ideal for the challenge key: a response that opens under the
    key carries a token the server sealed since it last started. */
module ServerProvenance {
  import opened Types
  import opened Crypto
  import opened Tokens
  import opened Packets
  import opened Replay
  import opened Queue
  import opened Traces
  import opened Memory
  import opened Inbox
  import opened Server
  import opened ServerTables
  import ServerLog
  import M = Mappings
  import H = TokenHistory

  // ----- the ideal challenge cipher -----

  /** The data is a challenge token sealed, since the server last started, for a granted request. */
  predicate Sealed(a: Aead, t: Trace, key: Key, sequence: uint64, data: bytes) {
    t.Then? && !t.last.Started?
    && ((t.last.Granted? && t.last.challengeSequence == sequence
         && data == SealChallenge(a, ChallengeToken(t.last.clientId, t.last.userData), sequence, key))
        || Sealed(a, t.past, key, sequence, data))
  }

  predicate Genuine(a: Aead, t: Trace, key: Key, reading: Reading) {
    reading.Some? && reading.value.0.Response? ==>
      var p := reading.value.0;
      OpenChallenge(a, p.challengeData, p.challengeSequence, key).Some? ==>
        Sealed(a, t, key, p.challengeSequence, p.challengeData)
  }

  /** No datagram presents a forged challenge token. */
  predicate GenuineDatagram(a: Aead, s: ServerState, d: Datagram, now: uint64) {
    s.running && |d.data| > 1 ==>
      var (client, index, m) := Route(s, d.from);
      0 <= index < m.num ==>
        Genuine(a, s.trace, s.challengeKey, Read(a, s, d, now, client, Some(m.entries[index].receiveKey)).0)
  }

  ghost predicate GenuineAll(a: Aead, s: ServerState, ds: seq<Datagram>, now: uint64)
    decreases |ds|
  {
    ds == [] || (GenuineDatagram(a, s, ds[0], now) && GenuineAll(a, Receive(a, s, ds[0], now), ds[1..], now))
  }

  ghost predicate GenuineEvent(a: Aead, s: ServerState, e: Event) {
    e.UpdateEvent? ==> GenuineAll(a, s.(time := e.time), e.datagrams, e.now)
  }

  lemma {:induction false} SealedOpens(a: Aead, t: Trace, key: Key, sequence: uint64, data: ChallengeData)
    requires Lawful(a) && Sealed(a, t, key, sequence, data)
    ensures var c := OpenChallenge(a, data, sequence, key);
            c.Some? && GrantedToken(t, c.value.clientId, c.value.userData)
  {
    hide OpenChallenge, SealChallenge, Lawful;
    var e := t.last;
    if e.Granted? && e.challengeSequence == sequence
       && data == SealChallenge(a, ChallengeToken(e.clientId, e.userData), sequence, key) {
      OpenSealChallenge(a, ChallengeToken(e.clientId, e.userData), sequence, key);
    } else {
      SealedOpens(a, t.past, key, sequence, data);
    }
  }

  // ----- what is kept -----

  /** What a trace is judged by: the server's address, and the sizes of its tables. */
  datatype Scope = Scope(server: Address, size: nat, slots: nat)

  function ScopeOf(s: ServerState): Scope {
    Scope(s.address, |s.history|, |s.slots|)
  }

  /** What the token history was asked since the server last started. */
  function CallsSince(t: Trace): seq<H.Call> {
    match t
    case Nothing => []
    case Then(past, e) =>
      if e.Started? || e.Stopped? then []
      else if e.Shown? then CallsSince(past) + [H.Call(e.from, e.mac, e.time)]
      else CallsSince(past)
  }

  /** No slot is held by this address or by this client id. */
  ghost predicate Vacant(t: Trace, slots: nat, a: Address, id: uint64) {
    forall i: nat :: i < slots && Seated(t, i).Some? ==>
      !SameAddress(Seated(t, i).value.address, a) && Seated(t, i).value.clientId != id
  }

  /** The history of the calls made so far lets the token through. */
  predicate LetIn(past: Trace, e: Effect, size: nat) {
    e.Shown? && size > 0 && H.FindOrAdd(H.After(size, CallsSince(past)), e.from, e.mac, e.time).0
  }

  /** The effect was preceded by the request it grants: for a token that lists this server, that the
      history let through, and whose address and client id held no slot. */
  ghost predicate Requested(past: Trace, e: Effect, k: Scope) {
    && past.Then? && past.past.Then? && e.Granted?
    && past.past.last.Processed? && past.past.last.packet.Request? && past.past.last.from == e.to
    && var data := past.past.last.packet.tokenData;
    && var token := ReadPrivate(data);
    && token.Some? && token.value.clientId == e.clientId && token.value.userData == e.userData
    && token.value.serverToClientKey == e.key
    && k.server != NoAddress && k.server in token.value.servers
    && past.last.Shown? && past.last.from == e.to && past.last.mac == data[1008..]
    && LetIn(past.past, past.last, k.size)
    && Vacant(past, k.slots, e.to, e.clientId)
  }

  /** A queued network payload is the payload of the packet processed just before. */
  predicate Received(past: Trace, e: Effect) {
    e.Queued? && e.from != NoAddress ==> CarriesLastPayload(past, e.from, e.item)
  }

  /** Every grant answers a request, and every queued payload was received. */
  ghost predicate Answers(t: Trace, k: Scope) {
    t.Then? ==>
      && Answers(t.past, k)
      && (t.last.Granted? ==> Requested(t.past, t.last, k))
      && Received(t.past, t.last)
  }

  /** The token history is what its calls since the last start make of an empty table, and their
      times are in order. */
  ghost predicate Remembers(s: ServerState, born: real) {
    var calls := CallsSince(s.trace);
    && s.history == H.After(|s.history|, calls)
    && born <= s.time
    && (forall i :: 0 <= i < |calls| ==> born <= calls[i].time <= s.time)
    && (forall i, j :: 0 <= i < j < |calls| ==> calls[i].time <= calls[j].time)
    && (!s.running ==> calls == [])
  }

  /** The trace knows who holds each slot. */
  ghost predicate KnowsTenants(s: ServerState) {
    forall i :: 0 <= i < |s.slots| ==> Seated(s.trace, i) == TenantOf(s.slots[i])
  }

  /** `honest` says that no challenge token was forged; only a client's id and user data hang on it.
      `born` is a time the server has never been earlier than. */
  datatype Given = Given(honest: bool, born: real)

  ghost predicate Prov(given: Given, s: ServerState) {
    && (forall i :: 0 <= i < |s.slots| && Remote(s.slots[i]) ==>
          && (given.honest ==> GrantedToken(s.trace, s.slots[i].clientId, s.slots[i].userData))
          && GrantedTo(s.trace, s.slots[i].address))
    && (forall k :: 0 <= k < |s.mappings.entries| && s.mappings.entries[k].address != NoAddress ==>
          GrantedTo(s.trace, s.mappings.entries[k].address))
    && (!s.running ==> NoAddresses(s.mappings))
    && Answers(s.trace, ScopeOf(s))
    && Remembers(s, given.born)
  }

  ghost predicate NoAddresses(m: M.Manager) {
    forall k :: 0 <= k < |m.entries| ==> m.entries[k].address == NoAddress
  }

  lemma CreateProv(given: Given, address: Address, protocolId: uint64, key: Key, f: bool, g: bool, time: real)
    requires given.born <= time
    ensures Prov(given, Create(address, protocolId, key, f, g, time))
  {
  }

  /** The later trace grants what the earlier one did. */
  ghost predicate Later(t: Trace, u: Trace, k: Scope) {
    && (forall x: Address :: GrantedTo(t, x) ==> GrantedTo(u, x))
    && (forall id: uint64, userData: UserData :: GrantedToken(t, id, userData) ==> GrantedToken(u, id, userData))
    && (Answers(t, k) ==> Answers(u, k))
    && CallsSince(u) == CallsSince(t)
  }

  /** No address is bound that was not bound before. */
  ghost predicate Narrows(m: M.Manager, n: M.Manager) {
    && |n.entries| == |m.entries|
    && (forall k :: 0 <= k < |n.entries| ==>
          n.entries[k].address == m.entries[k].address || n.entries[k].address == NoAddress)
  }

  ghost predicate SameOwner(x: Slot, y: Slot) {
    Remote(y) ==> Remote(x) && y.address == x.address && y.clientId == x.clientId && y.userData == x.userData
  }

  /** A step that gives no slot and no mapping away. */
  ghost predicate Keeps(s: ServerState, r: ServerState) {
    && Later(s.trace, r.trace, ScopeOf(s)) && Narrows(s.mappings, r.mappings)
    && |r.slots| == |s.slots| && (forall i :: 0 <= i < |s.slots| ==> SameOwner(s.slots[i], r.slots[i]))
    && r.address == s.address && r.running == s.running && r.history == s.history && s.time <= r.time
  }

  lemma RemembersLater(s: ServerState, r: ServerState, born: real)
    requires Remembers(s, born) && CallsSince(r.trace) == CallsSince(s.trace)
    requires r.history == s.history && s.time <= r.time && r.running == s.running
    ensures Remembers(r, born)
  {
    hide CallsSince, H.After;
  }

  lemma KeepsProv(given: Given, s: ServerState, r: ServerState)
    requires Prov(given, s) && Keeps(s, r)
    ensures Prov(given, r)
  {
    RemembersLater(s, r, given.born);
    hide Answers, GrantedTo, GrantedToken, Remembers;
    forall i | 0 <= i < |r.slots| && Remote(r.slots[i])
      ensures given.honest ==> GrantedToken(r.trace, r.slots[i].clientId, r.slots[i].userData)
      ensures GrantedTo(r.trace, r.slots[i].address)
    {
      assert SameOwner(s.slots[i], r.slots[i]);
    }
  }

  lemma KeepsTwice(s: ServerState, r: ServerState, u: ServerState)
    requires Keeps(s, r) && Keeps(r, u)
    ensures Keeps(s, u)
  {
    hide Answers, GrantedTo, GrantedToken;
    forall i | 0 <= i < |s.slots|
      ensures SameOwner(s.slots[i], u.slots[i])
    {
      assert SameOwner(s.slots[i], r.slots[i]) && SameOwner(r.slots[i], u.slots[i]);
    }
  }

  lemma KeepsItself(s: ServerState, r: ServerState)
    requires r.trace == s.trace && r.mappings == s.mappings && r.slots == s.slots
    requires r.address == s.address && r.running == s.running && r.history == s.history && s.time <= r.time
    ensures Keeps(s, r)
  {
  }

  lemma LaterByOne(t: Trace, e: Effect, k: Scope)
    requires !e.Started? && !e.Stopped? && !e.Shown? && !e.Granted? && Received(t, e)
    ensures Later(t, Then(t, e), k)
  {
  }

  lemma LaterTwice(t: Trace, u: Trace, v: Trace, k: Scope)
    requires Later(t, u, k) && Later(u, v, k)
    ensures Later(t, v, k)
  {
  }

  // ----- steps that keep -----

  lemma SendGlobalKeeps(s: ServerState, to: Address, p: Packet, key: Key)
    ensures Keeps(s, SendGlobal(s, to, p, key))
  {
    LaterByOne(s.trace, Sent(GLOBAL, to, p, s.globalSequence, key, s.protocolId), ScopeOf(s));
    hide Later;
  }

  lemma SendClientKeeps(s: ServerState, i: nat, p: Packet)
    requires i < |s.slots|
    ensures Keeps(s, SendClient(s, i, p))
  {
    var r := SendClient(s, i, p);
    if r.trace == s.trace {
      KeepsItself(s, r);
    } else {
      LaterByOne(s.trace, r.trace.last, ScopeOf(s));
      hide Later;
    }
  }

  lemma {:induction false} SendDisconnectsKeeps(s: ServerState, i: nat, n: nat)
    requires i < |s.slots|
    ensures Keeps(s, SendDisconnects(s, i, n))
    decreases n
  {
    hide Keeps, SendClient;
    if n > 0 {
      var r := SendClient(s, i, Disconnect);
      SendClientKeeps(s, i, Disconnect);
      SendDisconnectsKeeps(r, i, n - 1);
      KeepsTwice(s, r, SendDisconnects(r, i, n - 1));
    } else {
      KeepsItself(s, s);
    }
  }

  lemma {:induction false} PopAllLater(b: Inbox, slot: int, k: Scope)
    ensures Later(b.trace, PopAll(b, slot).trace, k)
    decreases b.queue.num
  {
    PopContents(b.queue);
    var (item, rest) := Pop(b.queue);
    if item.Some? {
      var e := Discarded(slot, item.value);
      LaterByOne(b.trace, e, k);
      PopAllLater(Inbox(rest, Free(b.memory, item.value.id), Then(b.trace, e)), slot, k);
    }
  }

  lemma DrainLater(b: Inbox, slot: int, k: Scope)
    ensures Later(b.trace, Drain(b, slot).trace, k)
  {
    PopAllLater(b, slot, k);
  }

  lemma RemoveNarrows(m: M.Manager, x: Address, time: real)
    requires m.num <= |m.entries|
    ensures Narrows(m, M.Remove(m, x, time).1)
  {
  }

  lemma ReleaseKeeps(s: ServerState, i: nat)
    requires i < |s.slots|
    ensures Keeps(s, Release(s, i))
  {
    DrainLater(Box(s, i), i, ScopeOf(s));
    LaterByOne(Drain(Box(s, i), i).trace, Released(i), ScopeOf(s));
    LaterTwice(s.trace, Drain(Box(s, i), i).trace, Release(s, i).trace, ScopeOf(s));
    hide Later, Narrows, Drain, M.Remove;
    RemoveNarrows(s.mappings, s.slots[i].address, s.time);
  }

  lemma DisconnectKeeps(s: ServerState, i: nat, sendPackets: bool)
    requires i < |s.slots|
    ensures Keeps(s, DisconnectInternal(s, i, sendPackets))
  {
    hide Keeps, SendDisconnects, Release;
    KeepsItself(s, s.(fault := true));
    if sendPackets {
      SendDisconnectsKeeps(s, i, NUM_DISCONNECT_PACKETS);
      var d := SendDisconnects(s, i, NUM_DISCONNECT_PACKETS);
      ReleaseKeeps(d, i);
      KeepsTwice(s, d, Release(d, i));
    } else {
      ReleaseKeeps(s, i);
    }
  }

  lemma {:induction false} DisconnectFromKeeps(s: ServerState, i: nat)
    requires i <= s.maxClients
    ensures Keeps(s, DisconnectFrom(s, i))
    decreases s.maxClients - i
  {
    hide Keeps, DisconnectInternal;
    KeepsItself(s, s);
    if i < s.maxClients {
      var d := if Remote(s.slots[i]) then DisconnectInternal(s, i, true) else s;
      DisconnectKeeps(s, i, true);
      DisconnectFromKeeps(d, i + 1);
      KeepsTwice(s, d, DisconnectFrom(d, i + 1));
    }
  }

  lemma HearKeeps(s: ServerState, i: nat)
    requires i < |s.slots|
    ensures Keeps(s, Hear(s, i)) && Hear(s, i).trace == s.trace
  {
  }

  lemma EnqueueLater(b: Inbox, i: nat, from: Address, item: Item, k: Scope)
    requires Received(b.trace, Queued(i, from, item))
    ensures Later(b.trace, Enqueue(b, i, from, item).trace, k)
  {
    LaterByOne(b.trace, Queued(i, from, item), k);
    LaterByOne(b.trace, Dropped(i, item), k);
    hide Later;
  }

  lemma DequeueLater(b: Inbox, i: nat, k: Scope)
    ensures Later(b.trace, Dequeue(b, i).1.trace, k)
  {
    if Pop(b.queue).0.Some? {
      LaterByOne(b.trace, Handed(i, Pop(b.queue).0.value), k);
    }
  }

  lemma BoxKeeps(s: ServerState, i: nat, b: Inbox)
    requires i < |s.slots| && Later(s.trace, b.trace, ScopeOf(s))
    ensures Keeps(s, WithBox(s, i, b))
  {
    hide Later;
  }

  lemma PutWindowKeeps(s: ServerState, client: nat, w: Option<Window>)
    ensures Keeps(s, PutWindow(s, client, w))
  {
  }

  lemma RouteKeeps(s: ServerState, from: Address)
    ensures Keeps(s, s.(mappings := Route(s, from).2))
  {
    hide FindByAddress;
  }

  lemma {:induction false} SendFromKeeps(s: ServerState, i: nat)
    requires i <= s.maxClients
    ensures Keeps(s, SendFrom(s, i))
    decreases s.maxClients - i
  {
    hide Keeps, SendClient;
    KeepsItself(s, s);
    if i < s.maxClients {
      var r := if KeepAliveDue(s, s.slots[i]) then SendClient(s, i, KeepAlivePacket(s, i)) else s;
      SendClientKeeps(s, i, KeepAlivePacket(s, i));
      SendFromKeeps(r, i + 1);
      KeepsTwice(s, r, SendFrom(r, i + 1));
    }
  }

  lemma CheckTimeoutsKeeps(s: ServerState)
    ensures Keeps(s, CheckTimeouts(s))
  {
    hide Keeps, DisconnectInternal;
    KeepsItself(s, s);
    var i := FindTimedOut(s, 0, s.maxClients);
    if i < s.maxClients {
      DisconnectKeeps(s, i, false);
    }
  }

  // ----- granting -----

  /** The request's token reads and lists this server, and no client has its address or id. */
  ghost predicate Acceptable(s: ServerState, from: Address, data: PrivateData) {
    && ReadPrivate(data).Some?
    && var t := ReadPrivate(data).value;
    && s.address != NoAddress && s.address in t.servers
    && (forall i :: 0 <= i < |s.slots| && s.slots[i].connected ==>
          !SameAddress(s.slots[i].address, from) && s.slots[i].clientId != t.clientId)
  }

  /** The checks a request passes before a slot or a mapping is looked for. */
  ghost predicate Passes(s: ServerState, from: Address, data: PrivateData) {
    Acceptable(s, from, data) && H.FindOrAdd(s.history, from, data[1008..], s.time).0
  }

  lemma SearchesAgree(s: ServerState, from: Address, id: uint64)
    requires Tables(s)
    ensures FindByAddress(s.slots, 0, s.maxClients, from) == s.maxClients
            <==> forall i :: 0 <= i < |s.slots| && s.slots[i].connected ==> !SameAddress(s.slots[i].address, from)
    ensures FindById(s.slots, 0, s.maxClients, id) == s.maxClients
            <==> forall i :: 0 <= i < |s.slots| && s.slots[i].connected ==> s.slots[i].clientId != id
  {
  }

  /** A token is sealed, granted and sent exactly when the request passes, a slot is free and the
      mapping table has room; a request that passes at a full server is denied; every other
      request gets no answer at all. */
  lemma GrantedExactlyWhen(a: Aead, s: ServerState, from: Address, data: PrivateData)
    requires Lawful(a) && Tables(s)
    ensures var r := ProcessRequest(a, s, from, data);
            var noted := s.(history := H.FindOrAdd(s.history, from, data[1008..], s.time).1,
                            trace := Then(s.trace, Shown(from, data[1008..], s.time)));
            if !Acceptable(s, from, data) then r == s
            else if !Passes(s, from, data) then r == noted
            else
              var t := ReadPrivate(data).value;
              var (room, mappings) := M.Add(s.mappings, M.Mapping(t.timeoutSeconds, s.time + t.timeoutSeconds as real, s.time,
                                                                  from, t.serverToClientKey, t.clientToServerKey), s.time);
              if s.numConnected == s.maxClients then
                r == noted.(globalSequence := (s.globalSequence + 1) % TWO64,
                            trace := Then(noted.trace, Sent(GLOBAL, from, Denied, s.globalSequence, t.serverToClientKey,
                                                            s.protocolId)))
              else if !room then r == noted
              else
                var sealed := SealChallenge(a, ChallengeToken(t.clientId, t.userData), s.challengeSequence, s.challengeKey);
                && |sealed| == CHALLENGE_TOKEN_BYTES
                && r == noted.(mappings := mappings,
                               challengeSequence := (s.challengeSequence + 1) % TWO64,
                               globalSequence := (s.globalSequence + 1) % TWO64,
                               trace := Then(Then(noted.trace, Granted(from, t.clientId, t.userData, s.challengeSequence,
                                                                       t.serverToClientKey)),
                                             Sent(GLOBAL, from, Challenge(s.challengeSequence, sealed), s.globalSequence,
                                                  t.serverToClientKey, s.protocolId)))
  {
    hide ReadPrivate, M.Add, H.FindOrAdd, SealChallenge, OpenChallenge, Tables, Lawful, FindByAddress, FindById;
    if ReadPrivate(data).Some? {
      var t := ReadPrivate(data).value;
      SearchesAgree(s, from, t.clientId);
      OpenSealChallenge(a, ChallengeToken(t.clientId, t.userData), s.challengeSequence, s.challengeKey);
    }
  }

  lemma AddNarrows(m: M.Manager, e: M.Mapping, time: real, k: nat)
    requires m.num <= |m.entries| && k < |m.entries|
    ensures var n := M.Add(m, e, time).1;
            |n.entries| == |m.entries|
            && (n.entries[k].address == m.entries[k].address || n.entries[k].address == e.address)
  {
  }

  lemma AskRemembers(s: ServerState, from: Address, mac: Mac, born: real)
    requires Remembers(s, born) && s.running
    ensures Remembers(AskHistory(s, from, mac).1, born)
  {
    hide H.FindOrAdd;
    var calls := CallsSince(s.trace);
    var all := calls + [H.Call(from, mac, s.time)];
    assert all[..|calls|] == calls;
  }

  lemma AskProv(given: Given, s: ServerState, from: Address, mac: Mac)
    requires Prov(given, s) && s.running
    ensures Prov(given, AskHistory(s, from, mac).1)
  {
    AskRemembers(s, from, mac, given.born);
    hide H.FindOrAdd, ReadPrivate, Requested, Remembers, CallsSince;
  }

  /** The packet processed last. */
  predicate Saw(t: Trace, from: Address, p: Packet) {
    t.Then? && t.last.Processed? && t.last.from == from && t.last.packet == p
  }

  /** The grant answers its request. */
  lemma GrantAnswers(given: Given, s: ServerState, from: Address, p: Packet)
    requires Prov(given, s) && KnowsTenants(s) && Saw(s.trace, from, p) && p.Request?
    requires Passes(s, from, p.tokenData)
    ensures var t := ReadPrivate(p.tokenData).value;
            Requested(AskHistory(s, from, RequestMac(p.tokenData)).1.trace,
                      Granted(from, t.clientId, t.userData, s.challengeSequence, t.serverToClientKey), ScopeOf(s))
  {
    hide H.FindOrAdd, H.After, ReadPrivate, Answers;
    var t := ReadPrivate(p.tokenData).value;
    var past := AskHistory(s, from, RequestMac(p.tokenData)).1.trace;
    assert LetIn(past.past, past.last, |s.history|);
    assert forall i: nat :: i < |s.slots| ==> Seated(past, i) == TenantOf(s.slots[i]);
    assert Vacant(past, |s.slots|, from, t.clientId);
  }

  /** After a grant the new mapping's address is one the server granted. */
  lemma GrantProv(given: Given, s: ServerState, r: ServerState, e: Effect, t: PrivateToken)
    requires Prov(given, s) && s.running && e.Granted? && Requested(s.trace, e, ScopeOf(s))
    requires r.slots == s.slots && r.address == s.address && r.running == s.running && r.history == s.history
    requires r.time == s.time && r.mappings == M.Add(s.mappings, RequestMapping(s, e.to, t), s.time).1
    requires r.trace.Then? && r.trace.last.Sent? && r.trace.past == Then(s.trace, e)
    ensures Prov(given, r)
  {
    hide ReadPrivate, M.Add, Requested, H.After;
    var g := r.trace.past;
    assert Answers(g, ScopeOf(s));
    LaterByOne(g, r.trace.last, ScopeOf(s));
    assert GrantedTo(g, e.to);
    forall k | 0 <= k < |r.mappings.entries| && r.mappings.entries[k].address != NoAddress
      ensures GrantedTo(r.trace, r.mappings.entries[k].address)
    {
      AddNarrows(s.mappings, RequestMapping(s, e.to, t), s.time, k);
    }
  }

  lemma RequestProv(given: Given, a: Aead, s: ServerState, from: Address, p: Packet)
    requires Lawful(a) && Tables(s) && Prov(given, s) && KnowsTenants(s) && s.running
    requires Saw(s.trace, from, p) && p.Request?
    ensures Prov(given, ProcessRequest(a, s, from, p.tokenData))
  {
    hide ReadPrivate, M.Add, H.FindOrAdd, SealChallenge, Tables, Lawful, Prov, ProcessRequest,
         Requested;
    var r := ProcessRequest(a, s, from, p.tokenData);
    GrantedExactlyWhen(a, s, from, p.tokenData);
    if Acceptable(s, from, p.tokenData) {
      var t := ReadPrivate(p.tokenData).value;
      var noted := AskHistory(s, from, RequestMac(p.tokenData)).1;
      AskProv(given, s, from, RequestMac(p.tokenData));
      SendGlobalKeeps(noted, from, Denied, t.serverToClientKey);
      KeepsProv(given, noted, SendGlobal(noted, from, Denied, t.serverToClientKey));
      if r != noted && s.numConnected != s.maxClients {
        GrantAnswers(given, s, from, p);
        GrantProv(given, noted, r, r.trace.past.last, t);
      }
    }
  }

  // ----- connecting -----

  lemma TenantProv(given: Given, s: ServerState, i: nat, x: Slot)
    requires Prov(given, s) && s.running && i < |s.slots|
    requires (given.honest ==> GrantedToken(s.trace, x.clientId, x.userData)) && GrantedTo(s.trace, x.address)
    ensures Prov(given, PutSlot(s, i, x))
  {
    RemembersLater(s, PutSlot(s, i, x), given.born);
    hide Answers, GrantedTo, GrantedToken, Remembers;
    var r := PutSlot(s, i, x);
    forall j | 0 <= j < |r.slots| && Remote(r.slots[j])
      ensures given.honest ==> GrantedToken(r.trace, r.slots[j].clientId, r.slots[j].userData)
      ensures GrantedTo(r.trace, r.slots[j].address)
    {
      if j != i {
        assert r.slots[j] == s.slots[j];
      }
    }
    hide Remote, NoAddresses;
  }

  lemma SeatProv(given: Given, s: ServerState, i: nat, x: Slot)
    requires Prov(given, s) && s.running && i < |s.slots| && 0 <= x.encryptionIndex < s.mappings.num
    requires (given.honest ==> GrantedToken(s.trace, x.clientId, x.userData)) && GrantedTo(s.trace, x.address)
    ensures Prov(given, Seat(s, i, x))
  {
    var quiet := Seat(s, i, x).(slots := s.slots);
    LaterByOne(s.trace, Accepted(i, x.address, x.clientId, KeysOf(s.mappings.entries[x.encryptionIndex])), ScopeOf(s));
    SetExpireNarrows(s.mappings, x.encryptionIndex);
    assert Keeps(s, quiet) by {
      hide Later, Narrows, M.SetExpireTime;
    }
    assert (given.honest ==> GrantedToken(quiet.trace, x.clientId, x.userData)) && GrantedTo(quiet.trace, x.address);
    hide Keeps, Prov, GrantedToken, GrantedTo, M.SetExpireTime, Later;
    KeepsProv(given, s, quiet);
    TenantProv(given, quiet, i, x);
  }

  lemma SetExpireNarrows(m: M.Manager, i: nat)
    requires i < m.num <= |m.entries|
    ensures Narrows(m, M.SetExpireTime(m, i, -1.0))
  {
  }

  lemma ConnectProv(given: Given, s: ServerState, i: nat, from: Address, id: uint64, e: int, timeout: int32,
                    userData: UserData)
    requires Prov(given, s) && s.running && i < |s.slots|
    requires (given.honest ==> GrantedToken(s.trace, id, userData)) && GrantedTo(s.trace, from)
    ensures Prov(given, ConnectClient(s, i, from, id, e, timeout, userData))
  {
    hide Prov, Seat, SendClient, GrantedTo, GrantedToken;
    KeepsItself(s, s.(fault := true));
    KeepsProv(given, s, s.(fault := true));
    if s.numConnected + 1 <= s.maxClients && !s.slots[i].connected && 0 <= e < s.mappings.num {
      var x := Taken(s, s.slots[i], from, id, e, timeout, userData);
      SeatProv(given, s, i, x);
      var joined := Seat(s, i, x);
      SendClientKeeps(joined, i, KeepAlivePacket(joined, i));
      KeepsProv(given, joined, SendClient(joined, i, KeepAlivePacket(joined, i)));
    }
  }

  lemma ResponseProv(given: Given, a: Aead, s: ServerState, from: Address, p: Packet, index: int, client: nat)
    requires Lawful(a) && Tables(s) && Prov(given, s) && s.running && Routed(s, from, index, client) && p.Response?
    requires OpenChallenge(a, p.challengeData, p.challengeSequence, s.challengeKey).Some? && given.honest && index != -1 ==>
               Sealed(a, s.trace, s.challengeKey, p.challengeSequence, p.challengeData)
    ensures Prov(given, ProcessResponse(a, s, from, p.challengeSequence, p.challengeData, index))
  {
    hide OpenChallenge, Tables, Lawful, Sealed, ConnectClient, GrantedTo, GrantedToken, Answers, FindById, FindFree,
         Remembers, NoAddresses;
    var answer := OpenChallenge(a, p.challengeData, p.challengeSequence, s.challengeKey);
    if answer.Some? && index != -1 {
      if given.honest {
        SealedOpens(a, s.trace, s.challengeKey, p.challengeSequence, p.challengeData);
      }
      if client < |s.slots| {
        ClientIsFound(s, from, index, client);
      } else {
        var e := s.mappings.entries[index];
        assert GrantedTo(s.trace, from);
        hide Prov, Routed;
        SendGlobalKeeps(s, from, Denied, e.sendKey);
        KeepsProv(given, s, SendGlobal(s, from, Denied, e.sendKey));
        KeepsItself(s, s.(fault := true));
        KeepsProv(given, s, s.(fault := true));
        var i := FindFree(s.slots, 0, s.maxClients);
        if i < s.maxClients {
          ConnectProv(given, s, i, from, answer.value.clientId, index, e.timeout, answer.value.userData);
        }
      }
    }
  }

  // ----- datagrams -----

  lemma HandleProv(given: Given, a: Aead, s: ServerState, from: Address, p: Packet, index: int, client: nat)
    requires Lawful(a) && Tables(s) && Prov(given, s) && KnowsTenants(s) && s.running && Routed(s, from, index, client)
    requires Saw(s.trace, from, p)
    requires p.Response? && OpenChallenge(a, p.challengeData, p.challengeSequence, s.challengeKey).Some? && given.honest && index != -1 ==>
               Sealed(a, s.trace, s.challengeKey, p.challengeSequence, p.challengeData)
    ensures Prov(given, Handle(a, s, from, p, index, client))
  {
    hide Tables, Lawful, Prov, ProcessRequest, ProcessResponse, DisconnectInternal, Hear, Sealed, OpenChallenge;
    match p
    case Request(_, _, _, _, data) => RequestProv(given, a, s, from, p);
    case Response(_, _) => ResponseProv(given, a, s, from, p, index, client);
    case KeepAlive(_, _) =>
      if client < |s.slots| {
        HearKeeps(s, client);
        KeepsProv(given, s, Hear(s, client));
      }
    case Disconnect =>
      if client < |s.slots| {
        DisconnectKeeps(s, client, false);
        KeepsProv(given, s, DisconnectInternal(s, client, false));
      }
    case _ =>
  }

  lemma DeliverProv(given: Given, a: Aead, s: ServerState, from: Address, reading: Reading, index: int, client: nat)
    requires Lawful(a) && Tables(s) && Prov(given, s) && KnowsTenants(s) && s.running && Routed(s, from, index, client)
    requires given.honest && index != -1 ==> Genuine(a, s.trace, s.challengeKey, reading)
    ensures Prov(given, Deliver(a, s, from, reading, index, client))
  {
    hide Tables, Lawful, Prov, Handle, Hear, Enqueue, OpenChallenge, SealChallenge, Keeps;
    if reading.Some? {
      var (p, q) := reading.value;
      var (id, memory) := Alloc(s.memory);
      var seen := s.(memory := memory, trace := Then(s.trace, Processed(from, p, q, KeyAt(s, index))));
      TraceTables(s, seen);
      SeenKeeps(s, seen, Processed(from, p, q, KeyAt(s, index)));
      SeenTenants(s, seen, Processed(from, p, q, KeyAt(s, index)));
      KeepsProv(given, s, seen);
      if p.Payload? && client < |s.slots| {
        var heard := Hear(seen, client);
        HearKeeps(seen, client);
        KeepsProv(given, seen, heard);
        var item := Item(id, p.data, q);
        EnqueueLater(Box(heard, client), client, from, item, ScopeOf(heard));
        BoxKeeps(heard, client, Enqueue(Box(heard, client), client, from, item));
        KeepsProv(given, heard, WithBox(heard, client, Enqueue(Box(heard, client), client, from, item)));
      } else {
        HandleProv(given, a, seen, from, p, index, client);
        var done := Handle(a, seen, from, p, index, client);
        KeepsItself(done, done.(memory := Free(done.memory, id)));
        KeepsProv(given, done, done.(memory := Free(done.memory, id)));
      }
    }
  }

  lemma SeenTenants(s: ServerState, r: ServerState, e: Effect)
    requires KnowsTenants(s) && r.trace == Then(s.trace, e) && e.Processed? && r.slots == s.slots
    ensures KnowsTenants(r)
  {
  }

  lemma LogTenants(s: ServerState, r: ServerState)
    requires ServerLog.Log(s, multiset{}) && r.trace == s.trace && |r.slots| == |s.slots|
    requires forall i :: 0 <= i < |s.slots| ==> TenantOf(r.slots[i]) == TenantOf(s.slots[i])
    ensures KnowsTenants(r)
  {
    assert forall i :: 0 <= i < |s.slots| ==> ServerLog.SlotLog(s.trace, i, s.slots[i]);
    hide ServerLog.SlotQueue, ServerLog.GlobalLog, ServerLog.Conserves;
  }

  lemma SeenKeeps(s: ServerState, r: ServerState, e: Effect)
    requires r.trace == Then(s.trace, e) && e.Processed? && r.mappings == s.mappings && r.slots == s.slots
    requires r.address == s.address && r.running == s.running && r.history == s.history && s.time <= r.time
    ensures Keeps(s, r)
  {
    LaterByOne(s.trace, e, ScopeOf(s));
    hide Later;
  }

  lemma ReceiveProv(given: Given, a: Aead, s: ServerState, d: Datagram, now: uint64)
    requires Lawful(a) && Tables(s) && Prov(given, s) && ServerLog.Log(s, multiset{})
    requires given.honest ==> GenuineDatagram(a, s, d, now)
    ensures Prov(given, Receive(a, s, d, now))
  {
    hide Tables, Lawful, Prov, Route, Read, Deliver, PutWindow, Genuine, Keeps, Routed, ServerLog.Log, KnowsTenants;
    if s.running && |d.data| > 1 {
      RouteTables(s, d.from);
      var (client, index, m) := Route(s, d.from);
      var routed := s.(mappings := m);
      RouteKeeps(s, d.from);
      KeepsProv(given, s, routed);
      if !(index == -1 && d.data[0] != 0) {
        var key := if index == -1 then None else Some(m.entries[index].receiveKey);
        var (reading, w) := Read(a, s, d, now, client, key);
        var moved := PutWindow(routed, client, w);
        PutWindowTables(routed, client, w, d.from, index);
        PutWindowKeeps(routed, client, w);
        KeepsProv(given, routed, moved);
        PutWindowFrame(routed, client, w);
        LogTenants(s, moved);
        DeliverProv(given, a, moved, d.from, reading, index, client);
      }
    }
  }

  lemma PutWindowFrame(s: ServerState, client: nat, w: Option<Window>)
    ensures var r := PutWindow(s, client, w);
            && r == s.(slots := r.slots)
            && (forall i :: 0 <= i < |s.slots| ==> TenantOf(r.slots[i]) == TenantOf(s.slots[i]))
  {
  }

  lemma {:induction false} ReceiveAllProv(given: Given, a: Aead, s: ServerState, ds: seq<Datagram>, now: uint64)
    requires Lawful(a) && Tables(s) && Prov(given, s) && ServerLog.Log(s, multiset{})
    requires given.honest ==> GenuineAll(a, s, ds, now)
    ensures Prov(given, ReceiveAll(a, s, ds, now))
    decreases |ds|
  {
    hide Tables, Lawful, Prov, Receive, GenuineDatagram, ServerLog.Log;
    if ds != [] {
      ReceiveTables(a, s, ds[0], now);
      ServerLog.ReceiveLog(a, s, ds[0], now);
      ReceiveProv(given, a, s, ds[0], now);
      ReceiveAllProv(given, a, Receive(a, s, ds[0], now), ds[1..], now);
    }
  }

  lemma UpdateProv(given: Given, a: Aead, s: ServerState, e: Event)
    requires e.UpdateEvent? && Lawful(a) && Tables(s) && RecentlySent(s) && OnTime(s, e.time) && Prov(given, s)
    requires ServerLog.Log(s, multiset{}) && (given.honest ==> GenuineEvent(a, s, e))
    ensures Prov(given, Update(a, s, e.time, e.datagrams, e.now))
  {
    var ticked := s.(time := e.time);
    ServerLog.FrameLog(s, ticked, multiset{});
    hide Tables, RecentlySent, Lawful, Prov, ReceiveAll, SendFrom, CheckTimeouts, Keeps, GenuineAll, ServerLog.Log;
    TickTables(s, e.time);
    KeepsItself(s, ticked);
    KeepsProv(given, s, ticked);
    ReceiveAllProv(given, a, ticked, e.datagrams, e.now);
    var received := ReceiveAll(a, ticked, e.datagrams, e.now);
    SendFromKeeps(received, 0);
    KeepsProv(given, received, SendFrom(received, 0));
    CheckTimeoutsKeeps(SendPackets(received));
    KeepsProv(given, SendPackets(received), CheckTimeouts(SendPackets(received)));
  }

  // ----- starting, stopping and the application's calls -----

  /** Nothing is connected and nothing is mapped. */
  lemma IdleProv(given: Given, s: ServerState)
    requires AllClean(s.slots) && NoAddresses(s.mappings) && Answers(s.trace, ScopeOf(s)) && Remembers(s, given.born)
    ensures Prov(given, s)
  {
    hide Answers, Remembers;
    forall i | 0 <= i < |s.slots|
      ensures !Remote(s.slots[i])
    {
      assert Clean(s.slots[i]);
    }
  }

  lemma StopProv(given: Given, s: ServerState)
    requires Tables(s) && Prov(given, s) && (s.running ==> NoLoopback(s))
    ensures Prov(given, Stop(s)) && NoAddresses(Stop(s).mappings)
  {
    if s.running {
      hide Tables, DisconnectFrom, Keeps, AllClean;
      StopClean(s);
      DisconnectFromKeeps(s, 0);
      var d := DisconnectFrom(s, 0);
      KeepsProv(given, s, d);
      assert Remembers(Stop(s), given.born);
      hide Requested, Remembers;
      assert Answers(Stop(s).trace, ScopeOf(Stop(s)));
      IdleProv(given, Stop(s));
    }
  }

  lemma StartProv(given: Given, s: ServerState, max: nat, key: Key)
    requires Tables(s) && Prov(given, s) && (s.running ==> NoLoopback(s)) && max <= |s.slots|
    ensures Prov(given, Start(s, max, key))
  {
    StopProv(given, s);
    StopClean(s);
    hide Tables, Stop, Clean, GrantedTo, GrantedToken;
    var idle := Stop(s);
    var r := Start(s, max, key);
    forall i | 0 <= i < |r.slots|
      ensures !Remote(r.slots[i])
    {
      assert Clean(idle.slots[i]);
      CleanNotRemote(idle.slots[i]);
    }
  }

  lemma CleanNotRemote(x: Slot)
    requires Clean(x)
    ensures !Remote(x)
  {
  }

  lemma SendPayloadKeeps(s: ServerState, i: nat, data: bytes)
    requires s.running ==> i < |s.slots|
    ensures Keeps(s, SendPayload(s, i, data))
  {
    var x := if s.running then s.slots[i] else FreeSlot();
    KeepsItself(s, s);
    if s.running && Remote(x) {
      hide Keeps, SendClient;
      var first := if x.confirmed then s else SendClient(s, i, KeepAlivePacket(s, i));
      SendClientKeeps(s, i, KeepAlivePacket(s, i));
      SendClientKeeps(first, i, Payload(data));
      KeepsTwice(s, first, SendClient(first, i, Payload(data)));
    } else if s.running && x.connected {
      LaterByOne(s.trace, Sent(i, NoAddress, Payload(data), x.sequence, ZERO_KEY, s.protocolId), ScopeOf(s));
      hide Later;
    }
  }

  lemma ReceivePayloadKeeps(s: ServerState, i: nat)
    requires s.running ==> i < |s.slots|
    ensures Keeps(s, ReceivePayload(s, i).1)
  {
    hide Keeps, Dequeue;
    KeepsItself(s, s);
    if s.running {
      DequeueLater(Box(s, i), i, ScopeOf(s));
      BoxKeeps(s, i, Dequeue(Box(s, i), i).1);
    }
  }

  lemma LoopbackKeeps(s: ServerState, i: nat, id: uint64, userData: UserData, data: bytes, q: uint64)
    requires i < |s.slots|
    ensures Keeps(s, ConnectLoopback(s, i, id, userData))
    ensures Keeps(s, DisconnectLoopback(s, i))
  {
    LaterByOne(s.trace, Accepted(i, NoAddress, id, Keys(ZERO_KEY, ZERO_KEY)), ScopeOf(s));
    DrainLater(Box(s, i), i, ScopeOf(s));
    hide Later, Drain;
  }

  lemma LoopbackPacketKeeps(s: ServerState, i: nat, data: bytes, q: uint64)
    requires i < |s.slots|
    ensures Keeps(s, ProcessLoopback(s, i, data, q))
  {
    var (id, memory) := Alloc(s.memory);
    EnqueueLater(Inbox(s.slots[i].queue, memory, s.trace), i, NoAddress, Item(id, data, q), ScopeOf(s));
    hide Later, Enqueue;
  }

  lemma StepProv(given: Given, a: Aead, s: ServerState, e: Event)
    requires Lawful(a) && Tables(s) && RecentlySent(s) && Prov(given, s) && Enabled(s, e) && Orderly(s, e)
    requires ServerLog.Log(s, multiset{}) && (given.honest ==> GenuineEvent(a, s, e))
    ensures Prov(given, Step(a, s, e))
  {
    hide Tables, RecentlySent, OnTime, Lawful, Prov, Start, Stop, Update, SendPayload, ReceivePayload,
         DisconnectInternal, DisconnectFrom, ConnectLoopback, DisconnectLoopback, ProcessLoopback, GenuineEvent, Keeps;
    KeepsItself(s, s);
    KeepsProv(given, s, s);
    match e
    case StartEvent(max, key) => StartProv(given, s, max, key);
    case StopEvent => StopProv(given, s);
    case UpdateEvent(_, _, _) => UpdateProv(given, a, s, e);
    case SendEvent(i, data) => SendPayloadKeeps(s, i, data); KeepsProv(given, s, Step(a, s, e));
    case ReceiveEvent(i) => ReceivePayloadKeeps(s, i); KeepsProv(given, s, Step(a, s, e));
    case FreeEvent(id) => KeepsItself(s, Step(a, s, e)); KeepsProv(given, s, Step(a, s, e));
    case DisconnectEvent(i) =>
      if s.running {
        DisconnectKeeps(s, i, true);
        KeepsProv(given, s, Step(a, s, e));
      }
    case DisconnectAllEvent => DisconnectFromKeeps(s, 0); KeepsProv(given, s, Step(a, s, e));
    case ConnectLoopbackEvent(i, id, userData) =>
      LoopbackKeeps(s, i, id, userData, [], 0);
      KeepsProv(given, s, Step(a, s, e));
    case DisconnectLoopbackEvent(i) =>
      LoopbackKeeps(s, i, 0, ZERO_USER_DATA, [], 0);
      KeepsProv(given, s, Step(a, s, e));
    case LoopbackPacketEvent(i, data, q) => LoopbackPacketKeeps(s, i, data, q); KeepsProv(given, s, Step(a, s, e));
  }

  ghost predicate GenuineRun(a: Aead, s: ServerState, es: seq<Event>)
    requires OrderlyRun(a, s, es)
    decreases |es|
  {
    es == [] || (GenuineEvent(a, s, es[0]) && GenuineRun(a, Step(a, s, es[0]), es[1..]))
  }

  lemma {:induction false} RunProv(given: Given, a: Aead, s: ServerState, es: seq<Event>)
    requires Lawful(a) && Tables(s) && RecentlySent(s) && ServerLog.Log(s, multiset{}) && Prov(given, s)
    requires OrderlyRun(a, s, es) && (given.honest ==> GenuineRun(a, s, es))
    ensures Prov(given, Run(a, s, es))
    decreases |es|
  {
    hide Tables, RecentlySent, Lawful, Prov, Step, Orderly, Enabled, GenuineEvent, ServerLog.Log;
    if es != [] {
      StepTables(a, s, es[0]);
      ServerLog.StepLog(a, s, es[0]);
      StepProv(given, a, s, es[0]);
      RunProv(given, a, Step(a, s, es[0]), es[1..]);
    }
  }
}
