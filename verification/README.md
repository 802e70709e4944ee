# The netcode.io protocol engine, modelled and proved in Dafny

netcode.io 1.01 connects game clients to dedicated servers over UDP. A backend hands a client a
connect token; the client shows its encrypted half to one of the listed servers; the server answers
with a sealed challenge, the client returns it, and a keep-alive packet completes the handshake.
From then on both sides exchange sealed payloads with sequence numbers. This project models that
engine as `c/netcode.c` implements it, and the packet codec of the Go implementation, and proves
what the protocol is for.

`dafny verify dfyconfig.toml` checks the whole project.

## How the model is built

Every stateful part of the source appears twice: as an object with fields and arrays that methods
update in place, and as a value with one function for each source function. The methods of the
object are proved to compute that function of the old state; invariants and theorems about whole
runs are proved of the functions. `ClientObject.Drive` and `ServerObject.Drive` join the two: an
object driven through any calls ends in exactly the state of the run.

| part | as values | in place |
|---|---|---|
| byte order, tokens, packets | `LittleEndian`, `Tokens`, `Packets` | `Wire`, `TokenWire`, `GoBuffer`, `GoPackets` |
| replay window | `Replay` | `ReplayBuffer` |
| packet queue | `Queue`, `Inbox` | `PacketRing` |
| encryption mappings | `Mappings` | `EncryptionTable` |
| connect token history | `TokenHistory`, `TokenOrder` | `TokenEntries` |
| client | `Client`, with `ClientRuns`, `ClientAnswers`, `ClientTheorems`, `ClientFailover`, `ClientLifetime`, `ClientPayloads`, `ClientReadings` and `ClientNonces` | `ClientObject` |
| server | `Server`, with `ServerTables`, `ServerLog`, `ServerAnswers`, `ServerProvenance`, `ServerNonces`, `ServerReadings`, `ServerTimeouts` and `ServerTheorems` | `ServerObject` |
| what goes to the socket | `Traces` | `Posting` |
| both together | `EndToEnd`, `Handshake`, `Restarts`, `Delivery` | |

Conventions:

- Each endpoint carries a trace (`Traces`) of what it does to the world outside: packets sent,
  processed, queued, dropped, handed over and discarded, state changes, clients taken in and let go,
  calls to the token history and granted requests. Statements about history are statements about the
  trace; "within the connection" starts again when a slot is given away, and for a client, whose
  queue survives a failover, when it was last idle. A ledger (`Memory`) records where every
  allocated packet is.
- The run-time asserts of the server on slots, counts and table indices, and the "encryption mapping
  is out of date" error, set its `fault` flag; the theorem is that it is never set.
- Encryption is a pair of functions that keeps what section 2.8 of RFC 8439 promises its users:
  sealing adds 16 bytes and opening with the same key, nonce and associated data gives the message
  back. Theorems hold for every such pair; `Crypto.TagOnlyIsLawful` shows that there is one. For
  provenance the pair is ideal for the challenge key: a response that opens under it carries a token
  the server sealed; for `Delivery` it is ideal for a client's keys: a datagram that reads as a payload
  under one of them is one the other side sealed.
- A run of the server is orderly when update times do not decrease, each gap between updates plus
  the send interval of 0.1 s is at most the timeout of every connected client that has one, and stop
  and start are called only while no loopback client is connected.
  `ServerTheorems.ClockMayAdvance` and `ServerTables.StopTables` say exactly when the tables survive
  a later clock and a stop.
- Datagrams, the time, the wall clock, random keys and user data are inputs. Time is `real`.

## Where the source and its documentation differ

The model follows the code in each case.

- `STANDARD.md:339` and `STANDARD.md:429` give address types the range [0,1]; the layout at
  `STANDARD.md:49` and the code use 1 for IPv4 and 2 for IPv6.
- `STANDARD.md:236` pads the high bits of the sequence number with zeros to make the nonce, which in its
  little-endian order (`STANDARD.md:32`) puts the zero bytes last; the code writes them first
  (`c/netcode.c:1464-1469`, `Crypto.NonceLayout`).
- A connected client that gets a disconnect packet tries the next server first
  (`c/netcode.c:2995-3002`); `STANDARD.md:377` has it disconnected. That is so if and only if its
  token lists no further server (`ClientFailover.DisconnectFailsOver`).
- The lifetime of a connect token is measured again from each server the client tries
  (`c/netcode.c:2591`), while `STANDARD.md:365` ends the attempt with the token.
  `ClientLifetime.TokenOutlived` says exactly for which tokens an attempt can last longer, and
  `ClientFailover.ConnectingEnds` bounds it by one lifetime for each server and the gaps between
  updates, which is the lifetime itself for one server.
- The queue's clear frees from index 0 instead of the start index (`c/netcode.c:2119-2130`). This
  is harmless because clients and servers clear only empty queues (`Inbox.DrainLedger`).
- After a stop the global sequence starts at 0 and is no longer disjoint from the sequences of
  client slots (`c/netcode.c:3873`, `ServerTheorems.GlobalSequencesCountUp`).
- The token history replaces the first of the entries with the lowest stamp. It is first in, first
  out exactly as long as, at each new token that meets a full table, the first entry is stamped later
  than the oldest one, unless that is the first (`TokenOrder.FirstInFirstOut`). A table of two or more
  entries filled within one update fails it (`TokenOrder.BurstForgetsTheNewest`). Using a token again
  does not renew its entry (`TokenHistory.UseDoesNotRenew`).
- A pair of key and sequence number is used for one sealed packet only, as the cipher wants it, on
  conditions the source leaves to its callers. For a client it is so if and only if the tokens it is
  given have different keys (`ClientNonces.NoncesOnce`). For a server that is not stopped it is so if
  and only if no two clients are taken in under one key (`ServerTheorems.NoncesOnce`); a client that
  is dropped and comes back with its token is such a case (`Restarts.ReconnectRepeats`). After a stop
  and a start it fails with the first client taken in, whatever its key (`Restarts.RestartRepeats`).

## Model

| member | source | states |
|---|---|---|
| Replay.WindowIsExact | c/netcode.c:1500-1527 | after any sequence of calls since a reset, a sequence below 2^63 is refused if and only if it is at least the window size behind some sequence seen before, or was accepted before; sequences of 2^63 and above are never refused |
| Replay.PassesOnce | c/netcode.c:1500-1527 | over any history no sequence below 2^63 passes twice |
| Replay.RefusalLasts | c/netcode.c:1500-1527 | a refused sequence is refused by every later window |
| Replay.PassingIsRemembered | c/netcode.c:1500-1527 | a sequence below 2^63 that was let through is refused from then on |
| ReplayBuffer.ReplayProtection.Reset | go/netcode/replay_protection.go:18-22 | the array, cleared in place, is the fresh window |
| ReplayBuffer.ReplayProtection.AlreadyReceived | go/netcode/replay_protection.go:24-50 | verdict and updated array are those of the window function, whose verdict is proved exact |
| ReplayBuffer.Judge | go/netcode/replay_protection.go:24-50 | a new array driven through any history refuses exactly what the filter that remembers everything refuses |
| LittleEndian.SequenceBytesLeast | c/netcode.c:1320-1331 | the byte count of a sequence is the least n in 1..8 with sequence < 256^n |
| LittleEndian.EncodeDigit | c/netcode.c:725-761 | the byte at place k of a written number is its digit of 256^k |
| LittleEndian.DecodeEncode | c/netcode.c:725-805 | reading the n little-endian bytes of a number below 256^n gives it back |
| LittleEndian.EncodeDecode | c/netcode.c:725-805 | writing the number read from a byte string gives the string back |
| Crypto.NonceLayout | c/netcode.c:1464-1469 | the nonce is four zero bytes and the sequence number in little-endian order |
| Packets.PacketAdLayout | c/netcode.c:1456-1462 | the data a packet is sealed with is the version, the protocol id and the prefix byte, in this order |
| Tokens.PrivateAdLayout | c/netcode.c:1039-1045 | the data a private token is sealed with is the version, the protocol id and the expiry, in this order |
| Tokens.ReadWriteAddress | c/netcode.c:988-1010 | a written IPv4 or IPv6 address is read back, with the bytes after it untouched |
| Tokens.WriteReadAddress | c/netcode.c:1111-1135 | whatever the reader accepts starts with exactly the bytes the writer produces for it |
| Tokens.ReadWriteServers | c/netcode.c:988-1010 | any mix of addresses is read back as written |
| Tokens.WriteReadServers | c/netcode.c:1111-1135 | writing the addresses that were read reproduces the bytes consumed |
| Tokens.PrivateBody | c/netcode.c:966-1023 | the fields of a private token take at most 944 bytes, inside the 1008 before the tag |
| Tokens.ReadWritePrivate | c/netcode.c:1089-1144 | a written private token is read back whatever follows its fields: zeros, or zeros and a tag |
| Tokens.PrivateRoundTrip | c/netcode.c:966-1144 | read(write(t)) = t for 1 to 32 addresses of any kind |
| Tokens.WriteReadPrivate | c/netcode.c:966-1144 | write(read(s)) reproduces every byte that was consumed, followed by zeros |
| Tokens.OpenSealPrivate | c/netcode.c:1025-1087 | opening a sealed private token in place gives a buffer that reads as the token and still ends in the tag it was sent with |
| Tokens.ConnectBody | c/netcode.c:1926-1988 | the fields of a connect token take at most 1749 of the 2048 bytes |
| Tokens.ConnectRoundTrip | c/netcode.c:1926-2078 | read(write(t)) = t for a connect token with the right version, 1 to 32 addresses and create <= expire |
| Tokens.WriteReadConnect | c/netcode.c:1926-2078 | write(read(s)) reproduces every byte that was consumed, followed by zeros |
| Tokens.OpenSealChallenge | c/netcode.c:1154-1230 | opening a sealed challenge token gives its client id and user data back |
| Packets.BodyRoundTrip | c/netcode.c:1736-1907 | the data of each packet of types 1 to 6 is read back as written |
| Packets.SealedRoundTrip | c/netcode.c:1333-1907 | read(write(p, seq)) gives p and seq for types 1 to 6 exactly when the type is allowed and the replay filter lets seq through; otherwise nothing; the window moves exactly as the filter says |
| Packets.RequestRoundTrip | c/netcode.c:1558-1650 | a written request is accepted if and only if requests are allowed, version, protocol id and expiry pass and the private key opens its token; it then carries the plain token with its tag |
| Packets.WireLength | c/netcode.c:1380-1485 | the wire length is 1 + n + data + 16 with n the least sufficient sequence length |
| Packets.FullPayloadFits | c/netcode.c:1450-1483 | a 1200-byte payload fits the 1220-byte buffer if and only if the sequence is below 2^24; up to 1195 bytes always fit |
| Packets.ReadMovesWindow | c/netcode.c:1708-1730 | a read moves the window by at most one call of the filter, and by exactly that call for a packet of types 4 to 6 that it returns |
| Wire.Cursor.WriteLittleEndian | c/netcode.c:725-761 | the loop over the moving pointer writes exactly the little-endian bytes, and nothing else in the buffer changes |
| Wire.Cursor.ReadLittleEndian | c/netcode.c:772-809 | the pointer moves on by n and the value is that of the n bytes it passed |
| Wire.SequenceNumberBytesRequired | c/netcode.c:1320-1331 | the loop that shifts the mask down finds the least sufficient length |
| Wire.WritePacketTo | c/netcode.c:1333-1485 | the buffer starts with exactly the bytes of the packet writer and is unchanged after them |
| Wire.ReadRequestFrom | c/netcode.c:1558-1650 | reading and decrypting in place gives what the request reader gives |
| Wire.ReadSealedFrom | c/netcode.c:1651-1906 | reading and decrypting in place, with the window updated on the way, gives what the reader of encrypted packets gives, and the same window |
| Wire.ReadPacketFrom | c/netcode.c:1529-1907 | the whole reader over the buffer equals the reader function in result and in window |
| Posting.WriteOut | c/netcode.c:1333-1485 | the bytes handed to the socket are those of the packet writer, for every packet an endpoint sends |
| TokenWire.WritePrivateTo | c/netcode.c:966-1023 | the 1024 bytes written are those of the private token writer; the rest of the buffer is unchanged |
| TokenWire.ReadPrivateFrom | c/netcode.c:1089-1144 | the reader over the buffer equals the private token reader and never leaves the buffer |
| TokenWire.WriteConnectTo | c/netcode.c:1926-1988 | the 2048 bytes written are those of the connect token writer; the rest of the buffer is unchanged |
| TokenWire.ReadConnectFrom | c/netcode.c:1990-2078 | the reader over the buffer equals the connect token reader and never leaves the buffer |
| TokenWire.WriteServersTo | c/netcode.c:1932-1975 | the loops over addresses and words write exactly the bytes of the address list |
| TokenWire.ReadServersFrom | c/netcode.c:2041-2070 | the loop over addresses reads exactly the address list, or fails when the list does |
| TokenWire.WriteChallengeTo | c/netcode.c:1154-1173 | zeros first and fields over them give the bytes of the challenge token writer |
| TokenWire.ReadChallengeFrom | c/netcode.c:1211-1230 | the reader over the buffer equals the challenge token reader |
| Queue.PushContents | c/netcode.c:2132-2146 | push appends to the queue exactly when fewer than its size are queued, and otherwise changes nothing |
| Queue.PopContents | c/netcode.c:2148-2158 | pop removes and returns the oldest item; an empty queue gives nothing |
| Queue.ClearFreesTheQueue | c/netcode.c:2119-2130 | clear frees exactly the queued slots if and only if the queue is empty, is full or starts at index 0: it counts from index 0 |
| PacketRing.PacketQueue.Clear | c/netcode.c:2119-2130 | the packets freed and the emptied ring are those of the model |
| PacketRing.PacketQueue.Push | c/netcode.c:2132-2146 | the array ring appends, or reports full and keeps its contents |
| PacketRing.PacketQueue.Pop | c/netcode.c:2148-2158 | the array ring gives its oldest item and keeps the others in order |
| Inbox.DrainLedger | c/netcode.c:2618-2629 | popping until empty frees every queued packet once, and the clear after it frees nothing |
| Inbox.DrainOrder | c/netcode.c:2618-2629 | draining keeps "queued = taken or discarded, then contents" over the whole run |
| Inbox.EnqueueLedger | c/netcode.c:2730-2744 | a payload that is pushed ends up queued, or freed when the queue is full, never both |
| Mappings.LiveUnique | c/netcode.c:3273-3313 | each address has at most one unexpired entry, below the high-water mark |
| Mappings.AddFails | c/netcode.c:3273-3313 | add fails if and only if every entry is unexpired and none has the address |
| Mappings.AddView | c/netcode.c:3273-3313 | add binds the address in the map with expiry and changes no other binding |
| Mappings.RemoveInv | c/netcode.c:3315-3351 | remove, with its walk back of the mark, keeps the table invariant and leaves every other live entry in place below the mark |
| Mappings.RemoveLowersMark | c/netcode.c:3332-3342 | removing the entry just below the mark lowers the mark to the next unexpired entry, or to 0, and leaves no address above it; removing any other entry leaves the mark |
| Mappings.RemoveView | c/netcode.c:3315-3351 | remove unbinds the address and nothing else |
| Mappings.FindView | c/netcode.c:3353-3365 | find is map lookup, and a hit renews the binding |
| Mappings.TouchView | c/netcode.c:3367-3375 | touch of a live entry renews its binding and nothing else |
| Mappings.SetExpireView | c/netcode.c:3377-3383 | clearing the expiry of a live entry changes that binding only |
| Mappings.TickView | c/netcode.c:3256-3271 | time passing drops exactly the bindings that expired |
| Mappings.StepRefines | c/netcode.c:3256-3413 | each call on the table gives the answer of the map and the table of the map after it |
| Mappings.FreshTableIsAnEmptyMap | c/netcode.c:3235-3413 | over every run of calls in order of time, a table that starts empty gives exactly the answers of an address map with expiry and the same capacity |
| EncryptionTable.EncryptionManager.Reset | c/netcode.c:3235-3254 | the array table, cleared in place, is the empty table |
| EncryptionTable.EncryptionManager.Add | c/netcode.c:3273-3313 | the two scans and the update in place give the answer and the table of the model |
| EncryptionTable.EncryptionManager.WalkBack | c/netcode.c:3332-3342 | the loop that lowers the mark strips exactly the expired entries below it |
| EncryptionTable.EncryptionManager.Remove | c/netcode.c:3315-3351 | scan, clearing and walk back in place give the table of the model |
| EncryptionTable.EncryptionManager.Find | c/netcode.c:3353-3365 | the scan in place gives the index and the table of the model |
| EncryptionTable.EncryptionManager.Touch | c/netcode.c:3367-3375 | the update in place gives the answer and the table of the model |
| TokenHistory.BoundTag | c/netcode.c:3437-3485 | a tag other than zero bound to an address is accepted from exactly that address, and the table does not change |
| TokenHistory.EvictsOnlyWhenFull | c/netcode.c:3437-3485 | an entry is evicted only when every entry is real and stamped no earlier than it |
| TokenHistory.FullTableSawTags | c/netcode.c:3437-3485 | a table full of entries stamped since some time saw at least size - 1 other tags since then |
| TokenHistory.TokenStays | c/netcode.c:3437-3485 | over every run in order of time a token stays in the table while fewer than size - 1 other tokens have been stamped since its first use |
| TokenHistory.OneTokenOneAddress | c/netcode.c:3437-3485 | until then it is accepted from exactly the address that used it first |
| TokenHistory.OneTokenOneGrant | c/netcode.c:3437-3485 | over every run in order of time, two calls the history lets through with one token come from one address, while fewer than size - 1 other tokens were stamped since its first use |
| TokenHistory.UseDoesNotRenew | c/netcode.c:3437-3485 | the bound counts from the first use: using a token again does not renew its stamp, so that one other token after the last use can be enough for another address to use it |
| TokenHistory.EqualStampsForgetTheNewest | c/netcode.c:3437-3485 | in a table full of equal stamps each new token evicts the previous new one, which is then accepted again from any address |
| TokenOrder.RingStep | c/netcode.c:3437-3485 | one more call keeps the table a ring that holds the last size tokens added, oldest first, unless the token is new, the table is full, the oldest entry is not the first and the first one is stamped no later; then the table keeps the oldest token, which the queue forgets |
| TokenOrder.CallsInOrder | c/netcode.c:3437-3485 | calls in order of time, as a server makes them, stamp their new tokens in order |
| TokenOrder.FifoIsTheLastAdded | c/netcode.c:3437-3485 | the first-in first-out queue of a run is the last size tokens added |
| TokenOrder.FirstInFirstOut | c/netcode.c:3437-3485 | for new tokens stamped in order of time, the real entries after every part of a run are exactly those of the last size tokens added, if and only if, whenever a new token met a full table whose oldest entry was not the first, the first entry was stamped later than the oldest |
| TokenOrder.BurstFills | c/netcode.c:3437-3485 | distinct tokens of one instant fill an empty table in order |
| TokenOrder.BurstForgetsTheNewest | c/netcode.c:3437-3485 | a table of size n >= 2 filled by n tokens of one instant forgets the token n + 1 when the token n + 2 of that instant arrives, although the older ones but the first stay bound |
| TokenOrder.BurstBreaksOrder | c/netcode.c:3437-3485 | with tokens of one instant the condition first fails at the second new token that meets the full table |
| TokenEntries.ConnectTokenEntries.Reset | c/netcode.c:3426-3435 | the array, cleared in place, is the empty table |
| TokenEntries.ConnectTokenEntries.FindOrAdd | c/netcode.c:3437-3485 | the one-pass scan for match and oldest entry, and the update in place, give the answer and the table of the model |
| ClientTheorems.ConnectedOnlyAfterHandshake | c/netcode.c:2663-2763 | in every run, a live client aims at the server its index names; it is connected only after a challenge and later a keep-alive from that server since it last started to request; payloads are queued only after such a handshake with their sender, and are the payload just received |
| ClientTheorems.DeliversInOrderOnce | c/netcode.c:2730-2744 | in every run, what was queued in the connection is what the application took followed by what is queued, so what it took is a prefix; a payload is dropped only when the queue is full; within one attempt no sequence below 2^63 is queued twice and none is handed to the application twice; over the whole run, what was queued is what was taken or discarded, in order, followed by what is queued |
| ClientTheorems.PacketsConserved | c/netcode.c:2603-2763 | in every run each allocated packet is in the queue, with the application or freed, in one place and once |
| ClientTheorems.SequencesCountUp | c/netcode.c:2852-2878 | from connect until the client is idle again, across all failovers, the sequences it sends are 0, 1, 2, ... |
| ClientTheorems.DeadlinesHoldOnReturn | c/netcode.c:2970-3046 | whenever update returns in a live state no disconnect is pending, the last packet is within the timeout, and a connection under way is within the token lifetime |
| ClientTheorems.BoundedStateChanges | c/netcode.c:2634-3046 | after connecting with n servers a run without another connect call enters live states at most 3n - 1 more times: 3 * (n - index) - state pays for every change |
| ClientTheorems.SettlesInTime | c/netcode.c:2634-3046 | after a connect with a token that reads, with nothing received, timeout T > 0 and updates at most d apart, the client is idle at the first update later than n * (T + d) after the call |
| ClientFailover.DisconnectFailsOver | c/netcode.c:2747-3003 | a connected client that gets one genuine disconnect packet in an update is disconnected after it if and only if its token lists no further server; otherwise it requests from the next one |
| ClientFailover.UpdateMovesAim | c/netcode.c:2970-3046 | an update leaves a live client on its server with the clock of the attempt running, and within the lifetime of the token unless connected, or turns it to the next server with that clock started anew |
| ClientFailover.ConnectingEnds | c/netcode.c:2580-3046 | a client that is not connected when any of its calls returns is idle after n token lifetimes and n - 1 gaps between updates, for a token with n servers: with one server, after one lifetime |
| ClientLifetime.TokenOutlived | c/netcode.c:2580-3046 | an attempt in which no call returns connected can outlive the lifetime of its token, with updates at most g apart, if and only if the token lists n >= 2 servers and either sets no timeout or a timeout T with 2 n (T + g) - g above the lifetime |
| ClientLifetime.UpdateProceeds | c/netcode.c:2970-3046 | an update that leaves the client connecting does one of three things: nothing to its state and its timeout, it turns to responding with a new timeout, or it turns to the next server with a new timeout |
| ClientLifetime.Tours | c/netcode.c:2580-3046 | for any time up to T + g in each of the two states there is a run that spends it with every server, by a challenge and a denial that come late |
| ClientNonces.NoncesOnce | c/netcode.c:2852-2878 | for the tokens a client is given, in order: no run whose connect calls present them seals two packets with one key and sequence number, if and only if the keys of the readable tokens are different; connection requests are not sealed, and no connection sends more than 2^64 packets |
| ClientNonces.PresentingRepeats | c/netcode.c:2634-2661 | the run that presents the tokens one after the other and then disconnects seals two packets alike when two keys are the same |
| ClientNonces.DifferentKeysOnce | c/netcode.c:2852-2878 | in every run whose tokens have different keys no two sealed packets carry the same key and sequence number |
| ClientAnswers.UpdateSettles | c/netcode.c:2970-3046 | for an update of a live client with any datagrams, given what they leave of it: it sends what is due and then is idle in -6, -4, -3, -2, -1 or 0 if and only if the condition written out for that state holds, and never in -5; the whole idle state is given; on the other conditions it aims at the next server, with the whole state, or goes on as it was |
| ClientAnswers.QuietUpdateSettles | c/netcode.c:2880-3046 | an update without datagrams leaves a live client idle in -6 if and only if it is connecting and its token has expired, in -2 or -3 if and only if the server was silent for longer than the timeout while it was requesting or answering, and no server is left, in -4 if and only if so while it was connected, and in no other idle state |
| ClientAnswers.ConnectedKeepsAlive | c/netcode.c:2922-2935 | a connected client within its timeout sends a keep-alive under its key and next number if its last packet was sent more than a tenth of a second ago, and nothing otherwise |
| ClientAnswers.OthersTick | c/netcode.c:2970-2982 | an update changes nothing of a loopback client, or of an idle one without datagrams, but the time |
| ClientAnswers.HeardInOrder | c/netcode.c:2765-2815 | datagrams are heard one after the other, each by the client the ones before it left |
| ClientAnswers.DenialHeard | c/netcode.c:2672-2684 | a written denial from any address in any state: it counts exactly while connecting and from the server aimed at, and the whole next state is given |
| ClientAnswers.ChallengeHeard | c/netcode.c:2686-2700 | the same for a challenge, which counts exactly while requesting |
| ClientAnswers.KeepAliveHeard | c/netcode.c:2702-2728 | the same for a keep-alive, which connects a client that is answering and renews one that is connected, unless the window refuses it |
| ClientAnswers.DisconnectHeard | c/netcode.c:2745-2756 | the same for a disconnect packet, which counts exactly while connected |
| ClientAnswers.PayloadHeard | c/netcode.c:2730-2743 | the same for a payload, which is queued while connected and there is room, and otherwise freed |
| ClientAnswers.OthersUnheard | c/netcode.c:2765-2815 | requests and responses sent to a client change nothing |
| ClientAnswers.DenialSettles | c/netcode.c:2672-3003 | one written denial in an update leaves a connecting client in -1 if and only if no server is left, and otherwise it requests from the next |
| ClientAnswers.PayloadGoesOut | c/netcode.c:3054-3076 | a send call of a connected client on the network appends one payload packet to its server under its key and with its next number |
| ClientAnswers.PayloadElsewhere | c/netcode.c:3054-3084 | a loopback client passes the payload to the callback with its next number; a client that is not connected sends nothing |
| ClientAnswers.OldestIsTaken | c/netcode.c:3086-3106 | the receive call returns nothing if and only if the queue is empty, and otherwise its oldest payload, which leaves the queue, becomes the application's and is the one the trace says was handed over |
| ClientAnswers.GivenBack | c/netcode.c:3108-3114 | a packet the application holds and gives back is freed, and nothing else changes |
| ClientAnswers.ClientLeaves | c/netcode.c:3116-3150 | a client told to disconnect sends ten disconnect packets with consecutive numbers under its key, forgets everything about the connection and frees in order what nobody took; an idle one does nothing |
| ClientAnswers.ClientConnects | c/netcode.c:2634-2661 | a connect call in any state leaves as told and then is idle in -5 if and only if the token does not read, or requests from its first server under its keys, with the whole next state |
| ClientAnswers.LoopbackConnects | c/netcode.c:3177-3186 | an idle client is connected at once by loopback, with the index and size given |
| ClientAnswers.LoopbackLeaves | c/netcode.c:3188-3193 | a loopback client that leaves is idle in state 0 with everything forgotten and its payloads freed in order |
| ClientAnswers.LoopbackPayloadArrives | c/netcode.c:3201-3211 | a loopback payload is queued while there is room, and otherwise freed |
| ClientRuns.RunInv | c/netcode.c:2415-3150 | the invariant behind these results is kept by every run from any state that has it |
| ClientRuns.ResetInv | c/netcode.c:2603-2630 | returning to an idle state leaves nothing queued and loses no packet |
| ClientRuns.FailOverInv | c/netcode.c:2943-2968 | trying the next server, or settling when there is none, keeps the invariant and meets the deadlines |
| ClientObject.NetcodeClient.ResetConnectionData | c/netcode.c:2603-2630 | the object after clearing its fields and draining its queue is the model state after a reset |
| ClientObject.NetcodeClient.Connect | c/netcode.c:2634-2661 | the object after connect, which reads the token in its buffer, is the model state after connect, for any token bytes |
| ClientObject.NetcodeClient.ProcessPacket | c/netcode.c:2663-2763 | the object after a packet is the model state after it, for every packet and state |
| ClientObject.NetcodeClient.ReceivePackets | c/netcode.c:2765-2850 | the loop over datagrams, each read in place with the client window, gives the model state |
| ClientObject.NetcodeClient.SendPacketToServer | c/netcode.c:2852-2878 | the packet is written to a buffer in place, and what goes to the socket is its wire form under the write key, the next sequence number and the protocol id of the token |
| ClientObject.NetcodeClient.SendPackets | c/netcode.c:2880-2941 | the packet sent, if one is due, and the new state are those of the model, and its bytes go to the socket |
| ClientObject.NetcodeClient.ConnectToNextServer | c/netcode.c:2943-2968 | the object moves to the next server as the model does, and is unchanged when there is none |
| ClientObject.NetcodeClient.CheckDeadlines | c/netcode.c:2980-3045 | expiry, pending disconnect and the three timeouts lead to the model state |
| ClientObject.NetcodeClient.Update | c/netcode.c:2970-3046 | one update of the object is one update of the model |
| ClientObject.NetcodeClient.DisconnectInternal | c/netcode.c:3123-3150 | ten disconnect packets when asked for, then the reset, as in the model |
| ClientObject.Drive | c/netcode.c:2415-3211 | a new object driven through any calls its asserts allow ends in exactly the state of the model run, so every result about client runs is about the object; what its receive calls returned is what the trace says was handed over, in order, and what it gave the socket is, in order, the wire form of what the trace says was sent |
| ServerTheorems.MappingsNeverFail | c/netcode.c:3722-3821 | in every orderly run no assert on slots, counts or encryption indices fails and no mapping is out of date: each connected remote slot names an unexpired entry for its own address, and no two slots share one |
| ServerTheorems.ClockMayAdvance | c/netcode.c:3256-3271 | the tables survive the clock moving on if and only if every remote client with a timeout was sent something within that timeout |
| ServerTheorems.SlotsInOrder | c/netcode.c:3673-3882 | in every orderly run the client count is right, free slots are clean, ids and addresses of remote clients are distinct, and a free slot is found exactly when the server is not full |
| ServerTheorems.DeliversInOrderOnce | c/netcode.c:4199-4211 | in every orderly run, while a client holds a slot, what was queued for it is what the application took followed by what is queued, so what it took is a prefix; all of it came from the address that held the slot; a payload is dropped only when the queue is full; for a client on the network no sequence below 2^63 is queued twice, and none is handed to the application twice; over the whole run, what was queued is what was taken or discarded, in order, followed by what is queued |
| ServerTheorems.PacketsConserved | c/netcode.c:4145-4231 | in every orderly run each allocated packet is in one queue, with the application or freed, in one place and once |
| ServerTheorems.SlotSequencesCountUp | c/netcode.c:3722-3760 | the sends of a slot are numbered 0, 1, 2, ... since it was given away |
| ServerTheorems.GlobalSequencesCountUp | c/netcode.c:3697-3720 | global sends are numbered from 2^63 until the first stop, so that they never meet those of a slot, and from 0 after it |
| ServerTheorems.ClientsWereGranted | c/netcode.c:3916-4143 | with no forged challenge tokens, every connected remote client has the id and user data of a challenge token this server sealed since it started, for a request it granted, and its address had a request granted |
| ServerTheorems.GrantsWereChecked | c/netcode.c:3916-4013 | in every orderly run, forged tokens or not, each grant answers the request processed just before it, whose token lists this server, which the token history of the calls so far let through, and whose address and client id held no slot; each queued payload is the one just received |
| ServerTheorems.HistoryIsItsCalls | c/netcode.c:3916-4013 | the token history of the server is at any time the table its calls since the last start make of an empty one, and those calls are in order of time |
| ServerTheorems.OneTokenOneAddress | c/netcode.c:3916-4013 | two grants since the last start for one token go to one address, while fewer than size - 1 other tokens were stamped since its first use |
| ServerTheorems.NoncesOnce | c/netcode.c:3697-3760 | in every orderly run without a stop and with fewer than 2^63 packets sent, no two packets the server seals carry the same key and sequence number, of one slot, of two, or of a slot and the global sequence, if and only if no two clients were taken in under one key; granting a request again changes nothing |
| ServerNonces.RunNonces | c/netcode.c:3492-4665 | the invariant behind it, with the keys of every mapping a client holds, is kept by every orderly run from any state that has it |
| Restarts.ReconnectRepeats | c/netcode.c:3823-4143 | an orderly run: a client connects, the server drops it, and it connects again from its address with its token; the history and the mapping table take it again, and the first packets of both connections carry one key and sequence number |
| Restarts.RestartRepeats | c/netcode.c:3673-4143 | an orderly run: a running server is stopped and started, and one client with a fresh token shakes hands; its challenge and its keep-alive carry one key and sequence number |
| ServerTimeouts.SilentClientIsDropped | c/netcode.c:4365-4383 | a remote client whose last packet plus its positive timeout is not after the first of as many updates without datagrams as there are connected clients has lost its slot after the last, although each update drops one client at most and others may time out before it |
| ServerTimeouts.QuietUpdate | c/netcode.c:4535-4542 | an update without datagrams at a time when lastReceive + timeout <= time for some remote client with a positive timeout lowers the client count by exactly one; a slot that keeps its client stays as overdue as it was, and a free slot stays free |
| ServerTimeouts.QuietUpdateExactly | c/netcode.c:4342-4383 | what an update without datagrams does, slot by slot: a remote client last sent to a tenth of a second ago or longer is sent one keep-alive under its key and number; the first slot with lastReceive + timeout <= time and a positive timeout is freed and no other slot changes hands; when no slot meets that, nobody is dropped |
| ServerTimeouts.OnlyOverdueAreDropped | c/netcode.c:4288-4383 | an update with any datagrams in which no disconnect packet is processed leaves every remote client that does not meet the inequality in its slot |
| ServerReadings.RunReadings | c/netcode.c:4145-4286 | in every orderly run each packet processed was read from a datagram of the run, and each payload queued was read under the receive key of the client that held the slot |
| ServerReadings.RunSays | c/netcode.c:4420-4496 | over every run from a state whose tables are in order, the payloads sealed for a slot are, in order and with their sequence numbers and keys, those of the send calls made while a client on the network held it, and the payloads handed to the application are what its receive calls returned |
| ClientPayloads.RunSays | c/netcode.c:3054-3106 | over every run the payloads a client sealed are, in order, those of the send calls made while it was connected, and the payloads handed to the application are what its receive calls returned |
| Delivery.TakenWasGiven | c/netcode.c:4199-4211 | what the application takes from a slot is a selection, no element twice, of the payloads the owner of its receive key was given to send, over any run of both sides and any datagrams none of which is a payload forged under that key |
| ClientReadings.RunReadings | c/netcode.c:2663-2815 | in every run each packet a client processed was read from a datagram of the run, and each payload queued since it was last idle was read under the key it has now |
| Delivery.HeardWasGiven | c/netcode.c:2730-3106 | the other way: what the application of a live client took since the client was last idle are payloads the server's application gave to send calls for clients under the key the client reads with, and what it took in the present attempt is a selection of them, no element twice; over any run of both sides and any datagrams none of which is a payload forged under that key |
| ServerTables.FreeSlotExists | c/netcode.c:4015-4027 | a free slot is found if and only if the count is below the maximum |
| ServerTables.IndicesDistinct | c/netcode.c:4029-4079 | no two connected remote slots share an encryption index |
| ServerTables.StopTables | c/netcode.c:3860-3882 | after a stop the tables are in order if and only if no loopback client was connected: stop skips loopback slots but zeroes the count |
| ServerTables.SendClientTables | c/netcode.c:3722-3760 | a send to a connected remote client never faults and keeps the tables |
| ServerTables.ReleaseTables | c/netcode.c:3762-3821 | giving up a slot with its mapping keeps the tables and touches no other slot |
| ServerTables.ConnectTables | c/netcode.c:4029-4079 | seating a client on a live mapping keeps the tables and touches no other slot |
| ServerTables.RequestTables | c/netcode.c:3916-4013 | processing a connection request keeps the tables |
| ServerTables.ResponseTables | c/netcode.c:4081-4143 | processing a connection response keeps the tables |
| ServerTables.RunTables | c/netcode.c:3492-4665 | the tables are kept by every orderly run from any state that has them in order |
| ServerLog.RunLog | c/netcode.c:3492-4665 | order and single delivery per slot, conservation of packets and the numbering of sends are kept by every orderly run |
| ServerProvenance.GrantedExactlyWhen | c/netcode.c:3916-4013 | a challenge is sealed and sent if and only if the token reads, lists this server, neither its address nor its client id is connected, the history accepts the tag in its last 16 bytes, a slot is free and the mapping table has room; a full server denies; any other request gets no answer; the new mapping and the whole next state are written out |
| ServerAnswers.PayloadGoesOut | c/netcode.c:4420-4454 | a send call for a connected client on the network appends exactly one payload packet, to its address, under the send key of its mapping and with its next number; a keep-alive with the number before goes first if and only if the client was not confirmed; otherwise only the counters of the slot and the age of its mapping change |
| ServerAnswers.PayloadElsewhere | c/netcode.c:4420-4467 | a send call for a loopback slot passes the payload to the callback with the next number of the slot; for a free slot, and on a server that is not running, it does nothing |
| ServerAnswers.OldestIsTaken | c/netcode.c:4470-4499 | for a connected slot of a running server the receive call returns nothing if and only if the queue is empty, and otherwise its oldest payload, which leaves the queue, becomes the application's and is the one the trace says was handed over |
| ServerAnswers.NothingToTake | c/netcode.c:4475-4479 | from a free slot, and from a server that is not running, the receive call takes nothing |
| ServerAnswers.GivenBack | c/netcode.c:4501-4508 | a packet the application holds and gives back is freed, and nothing else changes |
| ServerAnswers.ClientIsRead | c/netcode.c:4233-4286 | a packet of types 3 to 6 written under the key of a slot's client is processed for that slot, or refused by the slot's window and nothing else |
| ServerAnswers.KeepAliveConfirms | c/netcode.c:4184-4197 | a written keep-alive packet of a client that its window lets through confirms the client and sets its receive time; queue, mappings and other slots are unchanged, and nothing is sent |
| ServerAnswers.DisconnectFrees | c/netcode.c:4216-4224 | a written disconnect packet of a client that its window lets through empties the slot, lowers the count by one, unbinds the address, sends nothing, changes no other slot and frees every payload nobody took |
| ServerAnswers.AnsweredExactlyWhen | c/netcode.c:4081-4143 | a response is answered if and only if its token opens, its sender has a mapping, and neither its address nor the client id of the token holds a slot; a full server sends a denial under the key of the mapping, and any other takes the client into the first free slot, with the whole next state |
| ServerAnswers.FullServerDenies | c/netcode.c:4119-4128 | a written genuine response to a server that filled up after its challenge is answered by a denial under the send key of the mapping, numbered by the global sequence, and no slot changes |
| ServerAnswers.TakenInOrder | c/netcode.c:4288-4316 | datagrams are taken one after the other, each by the server the ones before it left |
| ServerAnswers.UnknownSendersAreIgnored | c/netcode.c:4233-4258 | a datagram that is no request, from an address with neither a slot nor a mapping, changes nothing; nor does a datagram of one byte, or any on a server that is not running |
| ServerAnswers.FlagsIgnore | c/netcode.c:4162-4182 | a server told to ignore requests or responses frees the packet and does nothing else |
| ServerAnswers.StrangersAreIgnored | c/netcode.c:4184-4230 | keep-alive, payload and disconnect packets of an address without a slot are freed and nothing else changes |
| ServerAnswers.ClientIsDropped | c/netcode.c:3762-3841 | a client the application drops is sent ten disconnect packets with consecutive numbers under its key; then its slot is empty, its address unbound, its payloads freed, and no other slot has changed |
| ServerAnswers.NobodyToDrop | c/netcode.c:3823-3841 | dropping a free slot does nothing, nor does dropping on a server that is not running |
| ServerAnswers.EverybodyIsDropped | c/netcode.c:3843-3858 | dropping everybody sends each client on the network its ten packets under its own key and empties its slot; loopback slots and free ones stay as they were |
| ServerAnswers.ServerStops | c/netcode.c:3860-3882 | a stop drops everybody on the network and leaves no history, no mapping, no challenge key and counters at zero |
| ServerAnswers.NothingToStop | c/netcode.c:3843-3882 | stopping a server that is not running, or dropping everybody there, does nothing |
| ServerAnswers.ServerStarts | c/netcode.c:3673-3695 | a start stops a running server first and then opens the given number of slots, with empty queues, under a new challenge key and with challenge numbers from 0; nothing else changes |
| ServerAnswers.LoopbackConnects | c/netcode.c:4551-4588 | a loopback client takes the free slot it is given at once, confirmed, with its id and user data and without address or mapping |
| ServerAnswers.LoopbackPayloadArrives | c/netcode.c:4641-4664 | a loopback payload is queued while there is room and otherwise freed; it counts as a sign of life and does not confirm anybody |
| ServerAnswers.LoopbackLeaves | c/netcode.c:4590-4630 | a loopback client leaves its slot empty and its payloads freed, and nothing is sent |
| ServerProvenance.RunProv | c/netcode.c:3916-4143 | the invariant behind provenance is kept by every orderly run; only what it says of ids and user data needs that no challenge token is forged |
| ServerObject.NetcodeServer.FindClientIndexById | c/netcode.c:3884-3896 | the scan finds the first connected slot with the id |
| ServerObject.NetcodeServer.FindClientIndexByAddress | c/netcode.c:3898-3914 | the scan finds the first connected slot with the address |
| ServerObject.NetcodeServer.FindFreeClientIndex | c/netcode.c:4015-4027 | the scan finds the first free slot |
| ServerObject.NetcodeServer.Accepts | c/netcode.c:3931-3957 | the whitelist loop and the two duplicate checks decide as the model does |
| ServerObject.NetcodeServer.AskHistory | c/netcode.c:3958-3965 | the call on the token history in place gives the answer and the state of the model |
| ServerObject.NetcodeServer.SealChallengeToken | c/netcode.c:3992-4008 | the challenge token is written and sealed in its buffer, as in the model |
| ServerObject.NetcodeServer.OpenChallengeToken | c/netcode.c:4088-4103 | the challenge token is opened and read in its buffer, as in the model |
| ServerObject.NetcodeServer.ReadWith | c/netcode.c:4233-4286 | the datagram is read in its buffer against a window of its own array, and gives the packet and the window of the model |
| ServerObject.NetcodeServer.SendClientPacket | c/netcode.c:3722-3760 | asserts, touch, send and counters in place give the model state, and the packet written goes to the socket |
| ServerObject.NetcodeServer.DisconnectClientInternal | c/netcode.c:3762-3821 | asserts, disconnect packets, drained queue, removed mapping and cleared slot give the model state |
| ServerObject.NetcodeServer.DisconnectAllClients | c/netcode.c:3843-3858 | the loop over slots gives the model state |
| ServerObject.NetcodeServer.Stop | c/netcode.c:3860-3882 | the object after a stop is the model state after a stop |
| ServerObject.NetcodeServer.Start | c/netcode.c:3673-3695 | the object after a start is the model state after a start |
| ServerObject.NetcodeServer.ProcessConnectionRequest | c/netcode.c:3916-4013 | the object after a request is the model state after it |
| ServerObject.NetcodeServer.ConnectClient | c/netcode.c:4029-4079 | the object after seating a client is the model state after it |
| ServerObject.NetcodeServer.ProcessConnectionResponse | c/netcode.c:4081-4143 | the object after a response is the model state after it |
| ServerObject.NetcodeServer.ProcessPacket | c/netcode.c:4145-4231 | the object after any packet is the model state after it |
| ServerObject.NetcodeServer.ReadAndProcessPacket | c/netcode.c:4233-4286 | the object after any datagram is the model state after it |
| ServerObject.NetcodeServer.SendPackets | c/netcode.c:4342-4363 | the keep-alive loop gives the model state |
| ServerObject.NetcodeServer.CheckForTimeouts | c/netcode.c:4365-4383 | the loop drops the first client that timed out and no other |
| ServerObject.NetcodeServer.Update | c/netcode.c:4535-4542 | one update of the object is one update of the model |
| ServerObject.Drive | c/netcode.c:3492-4665 | a new object driven through any orderly calls ends in exactly the state of the model run, and none of its asserts has failed; what its receive calls returned is what the trace says was handed over, in order, and what it gave the socket is, in order, the wire form of what the trace says was sent |
| EndToEnd.GeneratedTokenReads | c/netcode.c:4675-4743 | a client can read a generated token if and only if create time plus lifetime did not wrap around 2^64 |
| EndToEnd.GeneratedTokenHolds | c/netcode.c:4675-4743 | a generated token holds its servers, timeout, protocol id, sequence and keys in the open, expires after the given seconds, or never when they are negative, and its private half opens under the private key to the client id, timeout, servers, keys and user data |
| EndToEnd.ConnectAims | c/netcode.c:2634-2661 | a client that connects with a generated token aims at its first server with its keys |
| EndToEnd.RequestReads | c/netcode.c:1558-1650 | the server reads the request of such a client and finds the generated private token in it |
| EndToEnd.KeyAgreement | c/netcode.c:3916-4013 | after such a request reaches a server willing to take it, with room in the mapping table or a live mapping for the sender, the receive key of the mapping for the sender is the write key of the client and its send key is the read key of the client; the answer is a challenge for the token's client id and user data |
| EndToEnd.ChallengeHeard | c/netcode.c:2686-2701 | the client takes the challenge over and turns to responding |
| EndToEnd.ResponseAccepted | c/netcode.c:4081-4143 | the response gets its sender a slot with the client id and user data of the token, and a keep-alive under the client's read key |
| EndToEnd.KeepAliveHeard | c/netcode.c:2703-2728 | the client that hears it is connected with the index and size it carries |
| EndToEnd.HandshakeCompletes | c/netcode.c:2663-4143 | the four datagrams, delivered in turn and at once between a client with a generated token and a willing server, connect both sides: slot, id, user data and index agree |
| Handshake.RequestSent | c/netcode.c:2880-2941 | an update of a requesting client within its deadlines sends the request and nothing else |
| Handshake.RequestUpdate | c/netcode.c:4535-4542 | the server update in which the request arrives sends the challenge and leaves the mapping in place, whatever keep-alives and timeouts that update also deals with |
| Handshake.ChallengeAnswered | c/netcode.c:2970-3046 | the client update in which the challenge arrives sends the response |
| Handshake.GrantWaits | c/netcode.c:3256-3271 | a granted request may be answered until the timeout of its token |
| Handshake.ResponseUpdate | c/netcode.c:4535-4542 | the server update in which the response arrives seats the sender and sends its keep-alive, and the timeouts of that update leave it seated |
| Handshake.KeepAliveConnects | c/netcode.c:2970-3046 | the client update in which the keep-alive arrives returns connected |
| Handshake.HandshakeOverUpdates | c/netcode.c:2634-4542 | three client updates and two server updates, any delays within the deadlines apart and each fed the packets the other side sent, connect both sides: slot, id, user data, index and size agree |
| EndToEnd.PayloadArrives | c/netcode.c:4199-4211 | a payload under the key of a connected client, with a sequence the window lets through, becomes the newest item of that slot's queue unless it is full, is refused from then on, confirms the client and changes no other slot |
| EndToEnd.PayloadHeard | c/netcode.c:2730-2744 | the same for a connected client hearing its server |
| GoPackets.ReadersAgree | go/netcode/packet.go:485-575 | on every non-empty buffer whose prefix is not zero, with equal key, permissions and window, the Go reader and the C reader return the same packet and sequence, or both nothing, and leave equal windows, although their checks run in a different order |
| GoPackets.GoReadsWhatCWrites | go/netcode/packet.go:485-520 | what either implementation writes the Go reader reads back, with its sequence, exactly when the type is allowed and the filter lets it through |
| GoPackets.FieldsAgree | go/netcode/packet.go:209-478 | the size checks and fields of the six Read methods accept what the C switch accepts |
| GoPackets.ReadFrom | go/netcode/packet.go:65-478 | the methods over the buffer, which decrypt in it and update the window in place, give the result and window of the reader |
| GoPackets.DecryptPacket | go/netcode/packet.go:485-520 | prefix, sequence, checks and decryption over the buffer equal the model of decryptPacket; nothing but the buffer and the window changes |
| GoPackets.ReadSequenceFrom | go/netcode/packet.go:523-545 | the shifting loop reads the little-endian value, after both length checks |
| GoPackets.ValidateSequence | go/netcode/packet.go:548-575 | the checks in this order give verdict and window of the model |
| GoPackets.ReadFieldsFrom | go/netcode/packet.go:209-478 | the fields of each type are read through the buffer as in the model |
| GoPackets.PacketCryptData | go/netcode/packet.go:613-623 | associated data and nonce are byte for byte those of the C implementation |
| GoPackets.WritePacketPrefix | go/netcode/packet.go:578-595 | prefix byte and sequence bytes are written at the position, and nothing else changes |
| GoPackets.EncryptPacket | go/netcode/packet.go:598-610 | the text is replaced in place by its cipher text with the tag after it |
| GoPackets.WriteTo | go/netcode/packet.go:197-464 | for each of the six types the buffer starts with exactly the bytes of the C writer and is unchanged after them |
| GoBuffer.Buffer.GetBytes | go/netcode/buffer.go:68-80 | the next bytes and a moved position, or an error that leaves the position alone |
| GoBuffer.Buffer.GetUint8 | go/netcode/buffer.go:83-89 | one byte; a buffer that is too short reads as zero without an error |
| GoBuffer.Buffer.GetUint16 | go/netcode/buffer.go:92-101 | two bytes, low byte first; a buffer that is too short reads as zero without an error |
| GoBuffer.Buffer.GetUint32 | go/netcode/buffer.go:104-115 | four bytes, low byte first; a buffer that is too short reads as zero without an error |
| GoBuffer.Buffer.GetUint64 | go/netcode/buffer.go:118-133 | eight bytes, low byte first; a buffer that is too short reads as zero without an error |
| GoBuffer.Buffer.WriteBytesN | go/netcode/buffer.go:202-206 | the bytes are stored at the position, which moves past them, and nothing else changes |
| GoBuffer.Buffer.WriteUint32 | go/netcode/buffer.go:223-232 | four little-endian bytes are stored at the position and nothing else changes |
| GoBuffer.Buffer.WriteUint64 | go/netcode/buffer.go:235-240 | eight little-endian bytes are stored at the position and nothing else changes |

## Left out

- Sockets, platform code, sleeping, the wall clock and logging: received datagrams and times are inputs, and packets sent are entries of the trace and, in the objects, the bytes given to the socket. An endpoint that has no address to send to gives the socket nothing.
- The cipher itself and random number generation: an abstract pair of functions and arbitrary inputs.
- Parsing and printing of addresses: decided by inet_pton and inet_ntop, which are not part of this model. An address is the value the parser stores, and all addresses of type NONE are one value.
- The network simulator: it drives tests with random loss and delay.
- Application callbacks, except that state changes and connections are entries of the trace: callbacks are taken not to call back into the library. Allocation always succeeds.
- Destroying a client or server, and accessors that return one field.
- Bits: shifts and masks are written as division and remainder by powers of 256.
- ClientObject.NetcodeClient.Connect: does not model the fields a token that does not read leaves behind; the source leaves the fields read so far in the client, which is idle and overwrites all of them at the next connect, while the model leaves the token of the client as it was.
- ServerObject.NetcodeServer.ReadWith: a slot's replay window is a value, copied into an array of its own while a datagram is read against it; the window is proved in place in `ReplayBuffer`.
- ServerObject.NetcodeServer.DisconnectClientInternal: a slot's packet queue is a value, and one slot record stands for the parallel arrays; the queue is proved in place in `PacketRing`.
- The timeout of a slot nobody has held yet: the source leaves it unset, the model starts it at 0; no branch looks at it before a client is seated.
- The size of the buffers packets are written to when sent: the source has 1220 bytes, and a longer packet fails an assert; the objects have 1225, enough for every packet. `Packets.FullPayloadFits` says when 1220 suffice.
- The Go server, client and client manager: some of their checks log without returning, and re-adding a mapping can leave it above the high-water mark, so the invariants proved here do not hold there.
- The Go connect tokens and the Go request packet: the address writer of Go drops the high byte of IPv6 words, so the round trip proved for C does not hold there.
- The Go reader on an empty buffer and on a prefix byte of zero: the first is an index error, the second is the request packet.
- Examples, tests, profiling programs and build files.
