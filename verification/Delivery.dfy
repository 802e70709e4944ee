/** From the sending application to the receiving one, in both directions: what an application takes is
    a selection of the payloads the other side's application gave to send, none of them twice, whatever
    the network loses, delays, repeats or makes up. The AEAD is ideal for the client's keys: a datagram
    that reads as a payload under one of them is one the other side sealed. */
module Delivery {
  import opened Types
  import opened Crypto
  import opened Packets
  import opened Replay
  import opened Queue
  import opened Traces
  import opened ServerTables
  import opened ServerReadings
  import ClientPayloads
  import ClientReadings
  import ClientRuns
  import ClientTheorems
  import ServerNonces
  import ServerTheorems
  import C = Client
  import S = Server

  // ----- an ideal cipher -----

  /** The bytes read as a payload under the key, at some time and with some window. */
  ghost predicate ReadsAsPayload(a: Aead, protocolId: uint64, key: Key, data: bytes) {
    exists now: uint64, privateKey: Option<Key>, w: Option<Window>, e: Effect ::
      && e.Processed? && e.packet.Payload?
      && ReadPacket(a, data, Some(key), protocolId, now, privateKey, S.ALLOWED, w).0 == Some((e.packet, e.sequence))
  }

  /** The bytes are a packet the client sealed under the key. */
  ghost predicate Sealed(a: Aead, protocolId: uint64, key: Key, t: Trace, data: bytes) {
    exists f: Effect ::
      && Occurs(t, f) && Seals(f) && f.key == key && f.protocolId == protocolId
      && data == WritePacket(a, f.packet, f.sequence, key, protocolId)
  }

  /** No datagram of the run is a payload forged under the key. */
  ghost predicate Authentic(a: Aead, protocolId: uint64, key: Key, t: Trace, es: seq<S.Event>) {
    forall i, d :: 0 <= i < |es| && es[i].UpdateEvent? && d in es[i].datagrams
                   && ReadsAsPayload(a, protocolId, key, d.data) ==>
      Sealed(a, protocolId, key, t, d.data)
  }

  /** A payload of a size no reader takes. */
  lemma OddSizeUnread(a: Aead, p: Packet, q: uint64, key: Key, protocolId: uint64, now: uint64, privateKey: Option<Key>,
                      w: Option<Window>)
    requires Lawful(a) && p.Payload? && !Legal(p)
    ensures ReadPacket(a, WritePacket(a, p, q, key, protocolId), Some(key), protocolId, now, privateKey, S.ALLOWED, w).0
            == None
  {
    assert ReadBody(PAYLOAD, Body(p)) == None;
    hide Nonce, PacketAd, WritePacket, Filter, Body, ReadBody;
    WrittenHeader(a, p, q, key, protocolId);
  }

  lemma {:induction false} OccursSent(t: Trace, f: Effect)
    requires Occurs(t, f) && CarriesPayload(f)
    ensures SendingOf(f) in PayloadsSent(t)
  {
    if t.last != f {
      OccursSent(t.past, f);
    }
  }

  /** A payload that was read under the key is one the client sealed. */
  lemma ReadingWasSent(a: Aead, protocolId: uint64, privateKey: Key, key: Key, t: Trace, es: seq<S.Event>, e: Effect)
    requires Lawful(a) && Authentic(a, protocolId, key, t, es) && FromRun(a, protocolId, privateKey, es, e)
    requires e.Processed? && e.packet.Payload? && e.readKey == Some(key)
    ensures Sending(e.packet.data, e.sequence, key, protocolId) in PayloadsSent(t)
  {
    hide Lawful, ReadPacket, WritePacket, Occurs;
    var i :| 0 <= i < |es| && es[i].UpdateEvent? && FromOne(a, protocolId, privateKey, es[i].datagrams, es[i].now, e);
    var d :| d in es[i].datagrams && ReadFrom(a, protocolId, privateKey, d, es[i].now, e);
    var w: Option<Window> :|
      ReadPacket(a, d.data, Some(key), protocolId, es[i].now, Some(privateKey), S.ALLOWED, w).0 == Some((e.packet, e.sequence));
    assert ReadsAsPayload(a, protocolId, key, d.data);
    var f: Effect :| Occurs(t, f) && Seals(f) && f.key == key && f.protocolId == protocolId
                     && d.data == WritePacket(a, f.packet, f.sequence, key, protocolId);
    if Legal(f.packet) {
      SealedRoundTrip(a, f.packet, f.sequence, key, protocolId, es[i].now, Some(privateKey), S.ALLOWED, w);
      OccursSent(t, f);
    } else {
      OddSizeUnread(a, f.packet, f.sequence, key, protocolId, es[i].now, Some(privateKey), w);
      assert false;
    }
  }

  // ----- the slot -----

  lemma {:induction false} HolderHasAddress(t: Trace, i: int)
    ensures Holder(t, i).Some? && Seated(t, i).Some? ==> Seated(t, i).value.address != NoAddress
  {
    if t.Then? {
      HolderHasAddress(t.past, i);
    }
  }

  lemma {:induction false} ItemsWereRead(t: Trace, i: int)
    requires Matched(t) && QueuedFromHolder(t, i) && Holder(t, i).Some?
    ensures forall item :: item in QueuedItemsSince(t, i) ==>
              exists e :: e in Readings(t) && ReadAs(e, item, Holder(t, i).value.receive)
  {
    var e := t.last;
    if !Begins(e, i) {
      ItemsWereRead(t.past, i);
      HolderHasAddress(t.past, i);
      forall item | item in QueuedItemsSince(t, i)
        ensures exists x :: x in Readings(t) && ReadAs(x, item, Holder(t, i).value.receive)
      {
        if item in QueuedItemsSince(t.past, i) {
          var x :| x in Readings(t.past) && ReadAs(x, item, Holder(t.past, i).value.receive);
          assert x in Readings(t);
        } else {
          assert t.past.last in Readings(t.past);
          assert ReadAs(t.past.last, item, Holder(t, i).value.receive);
        }
      }
    }
  }

  // ----- all together -----

  /** What is taken is a selection of what was given, no element of it twice. */
  ghost predicate Selection(taken: seq<Item>, given: seq<Sending>, key: Key, protocolId: uint64, pick: seq<nat>) {
    && |pick| == |taken|
    && (forall j :: 0 <= j < |pick| ==>
          pick[j] < |given| && given[pick[j]] == Sending(taken[j].payload, taken[j].sequence, key, protocolId))
    && (forall j, k :: 0 <= j < k < |pick| ==> pick[j] != pick[k])
  }

  lemma {:induction false} Picks(taken: seq<Item>, given: seq<Sending>, key: Key, protocolId: uint64) returns (pick: seq<nat>)
    requires OnceFrom(taken, 0) && (forall x :: x in given ==> x.sequence < TWO63)
    requires forall item :: item in taken ==> Sending(item.payload, item.sequence, key, protocolId) in given
    ensures Selection(taken, given, key, protocolId, pick)
  {
    if taken == [] {
      pick := [];
    } else {
      var n := |taken| - 1;
      var item := taken[n];
      assert forall x :: x in taken[..n] ==> x in taken;
      var before := Picks(taken[..n], given, key, protocolId);
      assert item in taken;
      var k :| 0 <= k < |given| && given[k] == Sending(item.payload, item.sequence, key, protocolId);
      assert given[k] in given;
      pick := before + [k];
      forall j | 0 <= j < n
        ensures pick[j] != k
      {
        assert taken[..n][j] == taken[j] && taken[j].sequence != item.sequence;
      }
    }
  }

  /** End to end: what the server's application took from a slot since its client was seated is a
      selection, without repetition, of the payloads the owner of the slot's receive key was given to
      send; whatever datagrams arrive, as long as none is a payload forged under that key, and the
      client numbered fewer than 2^63 packets in a connection. */
  lemma TakenWasGiven(a: Aead, s: S.ServerState, es: seq<S.Event>, i: nat, start: real, fs: seq<C.Event>) returns (pick: seq<nat>)
    requires Lawful(a) && ServerTheorems.New(s) && OrderlyRun(a, s, es)
    requires i < |Run(a, s, es).slots| && S.Remote(Run(a, s, es).slots[i])
    requires var r := Run(a, s, es);
             var e := r.slots[i].encryptionIndex;
             0 <= e < |r.mappings.entries| ==>
               && Authentic(a, s.protocolId, r.mappings.entries[e].receiveKey, C.Run(a, C.Create(start), fs).trace, es)
    requires forall x :: x in ClientPayloads.PayloadsGiven(a, C.Create(start), fs) ==> x.sequence < TWO63
    ensures var r := Run(a, s, es);
            var e := r.slots[i].encryptionIndex;
            && 0 <= e < |r.mappings.entries|
            && Selection(HandedSince(r.trace, i), ClientPayloads.PayloadsGiven(a, C.Create(start), fs), r.mappings.entries[e].receiveKey,
                         s.protocolId, pick)
  {
    hide Lawful, Run, OrderlyRun, Authentic, C.Run, ClientPayloads.PayloadsGiven, HandedSince, QueuedItemsSince, PayloadsSent, Readings;
    var r := Run(a, s, es);
    var given := ClientPayloads.PayloadsGiven(a, C.Create(start), fs);
    ClientPayloads.RunSays(a, C.Create(start), fs);
    NewReads(a, s, es);
    SlotItems(a, s, es, i);
    ServerTheorems.DeliversInOrderOnce(a, s, es, i);
    var key := r.mappings.entries[r.slots[i].encryptionIndex].receiveKey;
    forall item | item in HandedSince(r.trace, i)
      ensures Sending(item.payload, item.sequence, key, s.protocolId) in given
    {
      assert item in QueuedItemsSince(r.trace, i);
      var e :| e in Readings(r.trace) && ReadAs(e, item, key);
      ReadingWasSent(a, s.protocolId, s.privateKey, key, C.Run(a, C.Create(start), fs).trace, es, e);
      NothingSent(start);
    }
    pick := Picks(HandedSince(r.trace, i), given, key, s.protocolId);
  }

  lemma NothingSent(start: real)
    ensures PayloadsSent(C.Create(start).trace) == []
  {
  }

  lemma NewReads(a: Aead, s: S.ServerState, es: seq<S.Event>)
    requires Lawful(a) && ServerTheorems.New(s) && OrderlyRun(a, s, es)
    ensures var r := Run(a, s, es);
            && Matched(r.trace) && ServerNonces.Locked(r)
            && (forall e :: e in Readings(r.trace) ==> FromRun(a, s.protocolId, s.privateKey, es, e))
  {
    ServerTheorems.NewServer(s);
    NewTrace(s);
    hide Lawful, Tables, RecentlySent, Run, OrderlyRun, FromRun;
    RunReadings(a, s, es);
    ServerNonces.RunNonces(a, s, es);
    NoncesLocked(Run(a, s, es));
  }

  lemma NewTrace(s: S.ServerState)
    requires ServerTheorems.New(s)
    ensures Readings(s.trace) == [] && Matched(s.trace)
  {
    assert s.trace == Nothing;
  }

  lemma SlotItems(a: Aead, s: S.ServerState, es: seq<S.Event>, i: nat)
    requires Lawful(a) && ServerTheorems.New(s) && OrderlyRun(a, s, es)
    requires i < |Run(a, s, es).slots| && S.Remote(Run(a, s, es).slots[i])
    ensures var r := Run(a, s, es);
            var e := r.slots[i].encryptionIndex;
            && 0 <= e < |r.mappings.entries|
            && (forall item :: item in QueuedItemsSince(r.trace, i) ==>
                  exists x :: x in Readings(r.trace) && ReadAs(x, item, r.mappings.entries[e].receiveKey))
  {
    NewReads(a, s, es);
    ServerTheorems.DeliversInOrderOnce(a, s, es, i);
    hide Lawful, Run, OrderlyRun, Matched, Readings, QueuedItemsSince, QueuedFromHolder, Holder, FromRun, HandedSince;
    ItemsWereRead(Run(a, s, es).trace, i);
  }

  // ----- the other way -----

  /** The bytes read as a payload for a client under the key, at some time and with some window. */
  ghost predicate ReadsForClient(a: Aead, protocolId: uint64, key: Key, data: bytes) {
    exists now: uint64, w: Window, e: Effect ::
      && e.Processed? && e.packet.Payload?
      && ReadPacket(a, data, Some(key), protocolId, now, None, C.ALLOWED, Some(w)).0 == Some((e.packet, e.sequence))
  }

  /** No datagram of the client's run is a payload forged under the key. */
  ghost predicate AuthenticBack(a: Aead, key: Key, t: Trace, fs: seq<C.Event>) {
    forall i, d, protocolId: uint64 ::
      0 <= i < |fs| && fs[i].UpdateEvent? && d in fs[i].datagrams && ReadsForClient(a, protocolId, key, d.data) ==>
      Sealed(a, protocolId, key, t, d.data)
  }

  /** The payload is the item, under the key. */
  predicate Gave(x: Sending, item: Item, key: Key) {
    x.data == item.payload && x.sequence == item.sequence && x.key == key
  }

  lemma {:induction false} OccursTo(t: Trace, f: Effect)
    requires Occurs(t, f) && CarriesPayload(f)
    ensures SendingOf(f) in PayloadsTo(t, f.slot)
  {
    if t.last != f {
      OccursTo(t.past, f);
    }
  }

  lemma OddSizeUnheard(a: Aead, p: Packet, q: uint64, key: Key, protocolId: uint64, now: uint64, w: Window)
    requires Lawful(a) && p.Payload? && !Legal(p)
    ensures ReadPacket(a, WritePacket(a, p, q, key, protocolId), Some(key), protocolId, now, None, C.ALLOWED, Some(w)).0 == None
  {
    assert ReadBody(PAYLOAD, Body(p)) == None;
    hide Nonce, PacketAd, WritePacket, Filter, Body, ReadBody;
    WrittenHeader(a, p, q, key, protocolId);
  }

  /** A payload the client read under the key is one the server sealed for a slot. */
  lemma HearingWasSent(a: Aead, key: Key, t: Trace, fs: seq<C.Event>, e: Effect) returns (f: Effect)
    requires Lawful(a) && AuthenticBack(a, key, t, fs) && ClientReadings.FromRun(a, fs, e)
    requires e.Processed? && e.packet.Payload? && e.readKey == Some(key)
    ensures CarriesPayload(f) && f.packet == e.packet && f.sequence == e.sequence && f.key == key
    ensures SendingOf(f) in PayloadsTo(t, f.slot)
  {
    hide Lawful, ReadPacket, WritePacket, Occurs;
    var i :| 0 <= i < |fs| && fs[i].UpdateEvent? && ClientReadings.FromOne(a, fs[i].datagrams, fs[i].now, e);
    var d :| d in fs[i].datagrams && ClientReadings.ReadFrom(a, d, fs[i].now, e);
    var protocolId: uint64, w: Window :|
      ReadPacket(a, d.data, Some(key), protocolId, fs[i].now, None, C.ALLOWED, Some(w)).0 == Some((e.packet, e.sequence));
    assert ReadsForClient(a, protocolId, key, d.data);
    f :| Occurs(t, f) && Seals(f) && f.key == key && f.protocolId == protocolId
         && d.data == WritePacket(a, f.packet, f.sequence, key, protocolId);
    if Legal(f.packet) {
      SealedRoundTrip(a, f.packet, f.sequence, key, protocolId, fs[i].now, None, C.ALLOWED, Some(w));
      OccursTo(t, f);
    } else {
      OddSizeUnheard(a, f.packet, f.sequence, key, protocolId, fs[i].now, w);
      assert false;
    }
  }

  /** What the client's application took of the payloads queued since the present attempt began. */
  ghost function TakenInAttempt(t: Trace): seq<Item> {
    var before := |QueuedItemsSince(t, 0)| - |AttemptItems(t, 0)|;
    if 0 <= before <= |HandedSince(t, 0)| then HandedSince(t, 0)[before..] else []
  }

  /** What is taken is a selection of what was given for the slots, no element of it twice. */
  ghost predicate SlotsSelection(a: Aead, s: S.ServerState, es: seq<S.Event>, taken: seq<Item>, key: Key,
                                 pick: seq<(int, nat)>)
    requires OrderlyRun(a, s, es)
  {
    && |pick| == |taken|
    && (forall j :: 0 <= j < |pick| ==> Picked(a, s, es, taken[j], key, pick[j]))
    && (forall j, k :: 0 <= j < k < |pick| ==> pick[j] != pick[k])
  }

  ghost predicate Picked(a: Aead, s: S.ServerState, es: seq<S.Event>, item: Item, key: Key, p: (int, nat))
    requires OrderlyRun(a, s, es)
  {
    p.1 < |GivenOver(a, s, es, p.0)| && Gave(GivenOver(a, s, es, p.0)[p.1], item, key)
  }

  lemma {:induction false} SlotPicks(a: Aead, s: S.ServerState, es: seq<S.Event>, taken: seq<Item>, key: Key)
    returns (pick: seq<(int, nat)>)
    requires OrderlyRun(a, s, es) && OnceFrom(taken, 0)
    requires forall item :: item in taken ==> item.sequence < TWO63 && exists p :: Picked(a, s, es, item, key, p)
    ensures SlotsSelection(a, s, es, taken, key, pick)
  {
    hide GivenOver, OrderlyRun;
    if taken == [] {
      pick := [];
    } else {
      var n := |taken| - 1;
      assert forall x :: x in taken[..n] ==> x in taken;
      var before := SlotPicks(a, s, es, taken[..n], key);
      assert taken[n] in taken;
      var p :| Picked(a, s, es, taken[n], key, p);
      pick := before + [p];
      forall j | 0 <= j < n
        ensures pick[j] != p
      {
        assert taken[..n][j] == taken[j] && taken[j].sequence != taken[n].sequence;
      }
    }
  }

  /** The other way: what the client's application took since the client was last idle are payloads the
      server's application gave to send to clients under the key this client reads with; and what it took
      in the present attempt is a selection of them, without repetition.  Any datagrams may arrive, as
      long as none is a payload forged under that key, and the server numbered fewer than 2^63 packets
      for a client. */
  lemma HeardWasGiven(a: Aead, s: S.ServerState, es: seq<S.Event>, start: real, fs: seq<C.Event>)
    returns (pick: seq<(int, nat)>)
    requires Lawful(a) && ServerTheorems.New(s) && OrderlyRun(a, s, es)
    requires C.EnabledRun(a, C.Create(start), fs) && C.Live(C.Run(a, C.Create(start), fs))
    requires AuthenticBack(a, C.Run(a, C.Create(start), fs).readKey, Run(a, s, es).trace, fs)
    requires forall i: int, x :: x in GivenOver(a, s, es, i) ==> x.sequence < TWO63
    ensures var d := C.Run(a, C.Create(start), fs);
            && (forall item :: item in HandedSince(d.trace, 0) ==> exists p :: Picked(a, s, es, item, d.readKey, p))
            && SlotsSelection(a, s, es, TakenInAttempt(d.trace), d.readKey, pick)
  {
    hide Lawful, Run, OrderlyRun, AuthenticBack, C.Run, C.EnabledRun, GivenOver, HandedSince, QueuedItemsSince, AttemptItems,
         Picked, SlotsSelection;
    var d := C.Run(a, C.Create(start), fs);
    ClientTheorems.DeliversInOrderOnce(a, start, fs);
    forall item | item in HandedSince(d.trace, 0)
      ensures item.sequence < TWO63 && exists p :: Picked(a, s, es, item, d.readKey, p)
    {
      assert item in QueuedItemsSince(d.trace, 0);
      var p := ItemWasGiven(a, s, es, start, fs, item);
    }
    AttemptOnce(d.trace);
    pick := SlotPicks(a, s, es, TakenInAttempt(d.trace), d.readKey);
  }

  lemma AttemptOnce(t: Trace)
    requires |AttemptItems(t, 0)| <= |QueuedItemsSince(t, 0)|
    requires OnceFrom(HandedSince(t, 0), |QueuedItemsSince(t, 0)| - |AttemptItems(t, 0)|)
    ensures OnceFrom(TakenInAttempt(t), 0) && (forall x :: x in TakenInAttempt(t) ==> x in HandedSince(t, 0))
  {
    hide HandedSince, QueuedItemsSince, AttemptItems;
  }

  lemma ItemWasGiven(a: Aead, s: S.ServerState, es: seq<S.Event>, start: real, fs: seq<C.Event>, item: Item)
    returns (p: (int, nat))
    requires Lawful(a) && ServerTheorems.New(s) && OrderlyRun(a, s, es)
    requires C.EnabledRun(a, C.Create(start), fs) && C.Live(C.Run(a, C.Create(start), fs))
    requires AuthenticBack(a, C.Run(a, C.Create(start), fs).readKey, Run(a, s, es).trace, fs)
    requires forall i: int, x :: x in GivenOver(a, s, es, i) ==> x.sequence < TWO63
    requires item in QueuedItemsSince(C.Run(a, C.Create(start), fs).trace, 0)
    ensures item.sequence < TWO63 && Picked(a, s, es, item, C.Run(a, C.Create(start), fs).readKey, p)
  {
    hide Lawful, Run, OrderlyRun, AuthenticBack, C.Run, C.EnabledRun, GivenOver, QueuedItemsSince, Tables, RecentlySent,
         Readings, PayloadsTo, Handings, ClientReadings.FromRun;
    var d := C.Run(a, C.Create(start), fs);
    NewClientReads(a, start, fs);
    var e :| e in Readings(d.trace) && ReadAs(e, item, d.readKey);
    var f := HearingWasSent(a, d.readKey, Run(a, s, es).trace, fs, e);
    ServerTheorems.NewServer(s);
    ServerTheorems.NewTrace(s);
    RunSays(a, s, es, f.slot);
    NothingBefore(s.trace, f.slot);
    var given := GivenOver(a, s, es, f.slot);
    assert SendingOf(f) in given;
    var k :| 0 <= k < |given| && given[k] == SendingOf(f);
    p := (f.slot, k);
  }

  lemma NothingBefore(t: Trace, slot: int)
    requires t == Nothing
    ensures PayloadsTo(t, slot) == []
  {
  }

  lemma NewClientReads(a: Aead, start: real, fs: seq<C.Event>)
    requires C.EnabledRun(a, C.Create(start), fs)
    ensures var d := C.Run(a, C.Create(start), fs);
            && ClientReadings.Fed(d) && (forall e :: e in Readings(d.trace) ==> ClientReadings.FromRun(a, fs, e))
  {
    ClientRuns.CreateInv(start);
    ClientReadings.RunReadings(a, C.Create(start), fs);
    hide C.Run, C.EnabledRun, ClientReadings.FromRun;
    assert Readings(C.Create(start).trace) == [];
  }
}
