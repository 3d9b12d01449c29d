# Spectrum: a verified model of the proxy's session core

Spectrum moves a live player session between downstream servers. This project models the parts of
it that carry state across calls and goroutines, and proves what every run of them keeps. The code
paths, constants and error cases are those of the Go sources cited below. `dafny verify
dfyconfig.toml` verifies everything.

| file | what it models |
|---|---|
| `Bytes.dfy`, `Framing.dfy` | 32-bit words on the wire; length-prefixed frames, the reader over a transport with short reads, the writer over one that fails part-way |
| `ConcurrentWriter.dfy`, `WriterProgress.dfy` | any number of goroutines calling the writer, one interleaved step at a time; what they are bound to achieve |
| `Batch.dfy` | flag byte, compression threshold, batch format, pooled buffers |
| `ServerConn.dfy`, `Handshake.dfy`, `WireDelivery.dfy`, `ConnProgress.dfy`, `Conn.dfy` | the server connection as a state machine; what its runs keep; from the wire to the reader; what it is bound to do; the connection as an object |
| `Tracker.dfy` | the entity tracker and, defined separately, what a client does with the same packets |
| `SessionMachine.dfy`, `SessionProofs.dfy`, `SessionFrames.dfy`, `SessionPanics.dfy` | transfers, fallback and close over full connection states; what their runs keep; what their steps leave alone; what can bring the process down |
| `SessionDelivery.dfy`, `SessionOutcomes.dfy`, `Sessions.dfy` | what becomes of every item taken from a server; what every event leads to; the session as an object |
| `Scenarios.dfy` | concrete runs for every protocol ID: the login panic, a login and a transfer that complete, a transfer superseded by the next |
| `ClientPipeline.dfy`, `ContextPool.dfy` | client batches by value, and on pooled context objects |
| `ConnCache.dfy` | the transports' per-address connection cache and its eviction goroutines |
| `ApiCodec.dfy` | the API service's packets |
| `ChunkSquare.dfy` | the chunks sent around the player at a transfer |

State machines are total step functions over events, where an event that is not enabled changes
nothing; a statement about every event sequence is therefore a statement about every run. Classes
have the source's fields and loops, and their methods are proved equal to those step functions.

## Assumptions

- Packet marshalling, protocol conversion and snappy are parameters. Of compression it is assumed
  only, and only where stated, that decoding undoes encoding.
- `dial`, `CloseWithError`, `TransferContext` and one pass of `ReadPacket` are atomic with respect
  to each other, so a transfer's OnConnect function is registered before its connection is read.
  Processor hooks do not call back into the session and do not return contexts to the pool.
- A transport that has failed a write accepts no further byte; one that has failed a read has
  nothing left to read.
- What the client shows is modelled for decoded packets. With SyncProtocol a packet is written to
  the client as received, and what it shows is the effect of that packet's conversion.
- The packets of a clear reach the client. `sendGameData` ignores write errors
  (session/session.go:350-382), so a client whose connection fails in the middle of a clear is not modelled.
- Which case `select` takes when a connection is both closed and spawned, the iteration order of a
  set, which pooled object is reused, and every outcome of a foreign call are arbitrary.

## Where the code and its documentation disagree

The model follows the code.

- `TransferContext` is documented to refuse a second transfer (session/session.go:151-152). It does
  not: `SessionProofs.SecondTransferSupersedes`, and a concrete run in `Scenarios.SecondTransferIsNotRefused`.
- The transports are documented to keep a single connection per server (transport/spectral.go:13).
  After a failed stream there can be two: `ConnCache.FailedStreamLeavesTwoConnections`. A run keeps the
  promise if and only if it never dials an uncached address that has a live connection on which a
  stream has failed: `ConnCache.SingleConnectionIff`, and for one dial `ConnCache.DialDuplicatesIff`.
- `handlePlayStatus` is documented to handle the first PlayStatus (server/conn.go:507). A second one
  before spawn panics on the login path: `Scenarios.LoginPathCanPanic`; exactly when is `Handshake.DoubleCloseIff`,
  and for a whole session `SessionPanics.CrashIff`.
- Batch lengths are commented as big-endian (server/conn.go:171) and written little-endian.
- The API's ConnectionResponse is decoded into a copy, so its code is always read back as 0:
  `ApiCodec.DecodeUndoesEncodeIff`.
- With SyncProtocol a legacy client's undecoded packet makes the whole batch fail:
  `ClientPipeline.MissingPacketIff`, `ClientPipeline.SyncedLegacyClientIsRefused`.
- The tracker ignores whom an effect is for, so it can lose an effect the player still has:
  `Tracker.ForeignRemovalLeavesEffect`. The clear empties the client if and only if no removal of an
  effect the player has, from another entity, is the last packet to give or take that effect:
  `Tracker.ClearEmptiesIff`. What such losses do to a session is `SessionProofs.TransferIsolation`,
  `SessionProofs.FullIsolationIff` and `SessionProofs.NothingLeftIff`.

## Model

| member | source | states |
|---|---|---|
| `Bytes.Be32RoundTrip` | protocol/writer.go:36 | a length survives the big-endian word modulo 2^32, hence exactly when it fits |
| `Bytes.Le32RoundTrip` | server/conn.go:172 | the same for the little-endian word |
| `Framing.FrameRoundTripIff` | protocol/reader.go:23-34 | a frame in front of anything is read back with nothing of what follows, if and only if its length fits 32 bits |
| `Framing.FrameShape` | protocol/writer.go:33-42 | a frame is the payload behind its length, first byte highest |
| `Framing.ReadFrameIsFrame` | protocol/reader.go:23-34 | whatever reads as a frame is byte for byte the frame of what was read |
| `Framing.ReadAllStream` | protocol/reader.go:23-34 | whole frames before an unreadable tail are read back exactly, and the tail is what is left |
| `Framing.WholeFramesIsMost` | protocol/reader.go:23-34 | the frames counted as whole fit the prefix and one more would not |
| `Framing.PrefixSafety` | protocol/reader.go:23-34 | any byte prefix of a frame stream yields exactly the frames wholly inside it, then an error |
| `Framing.Source.ReadFull` | protocol/reader.go:30 | the bytes read do not depend on how the transport cuts its chunks; failure drains the stream |
| `Framing.Reader.ReadPacket` | protocol/reader.go:23-34 | consumes exactly one frame, or fails having drained a truncated stream |
| `Framing.Writer.Write` | protocol/writer.go:33-42 | success appends one whole frame; failure leaves a prefix of it on a broken transport |
| `Framing.Writer.WriteWithFlags` | protocol/writer.go:44-54 | the same for a payload whose first byte travels in the header |
| `ConcurrentWriter.StepKeeps` | protocol/writer.go:33-54 | every step of every caller keeps mutual exclusion, ownership of the shared scratch and the shape of the stream |
| `ConcurrentWriter.StreamIsWholeFramesInLockOrder` | protocol/writer.go:33-54 | in every interleaving the stream is whole frames in lock order and at most one proper prefix of the next, which belongs to the lock holder unless a write failed |
| `ConcurrentWriter.MutualExclusion` | protocol/writer.go:34-46 | in every interleaving at most one caller is between lock and unlock |
| `ConcurrentWriter.ReaderRecoversMessages` | protocol/writer.go:33-54 | in every interleaving a reader recovers exactly the complete messages in lock order, and all of them when nobody holds the lock and no write failed |
| `WriterProgress.CallCanBegin` | protocol/writer.go:33-54 | a goroutine in no call can make one, whatever the others are doing |
| `WriterProgress.WaitingCallerWritesItsFrame` | protocol/writer.go:33-54 | in every interleaving with the mutex free and no failed write, a waiting caller can take its turn, and then exactly its frame has been appended, the mutex is free and every other caller is where it was |
| `WriterProgress.EveryCallCanReturn` | protocol/writer.go:33-54 | every interleaving without a failed write can be continued until all calls have returned |
| `WriterProgress.EveryCallIsRecovered` | protocol/writer.go:33-54 | once all calls have returned without a failed write, the reader recovers, as a multiset, one message for every call ever made |
| `Batch.SplitUndoesEncode` | server/conn.go:169-175 | splitting on little-endian lengths returns the list that was batched |
| `Batch.BatchEncodingInjective` | server/conn.go:169-175 | different lists of representable payloads have different encodings |
| `Batch.UnpackUndoesPack` | server/conn.go:334-346 | flag test and decompression recover the body on both sides of the 256-byte threshold |
| `Batch.OpenUndoesSeal` | server/conn.go:149-217 | what `Write` or `WriteBatch` hands to the framer is opened as the same payload or the same list, and never asks for decoding |
| `Batch.SealShape` | server/conn.go:149-217 | the flag byte and body of every frame: batch or not, and compressed exactly above 256 bytes |
| `Batch.BatchShape` | server/conn.go:169-175 | every payload of a batch stands behind its own length, after the earlier and before the later ones |
| `Batch.StreamOfMessages` | server/conn.go:149-217 | any mix of `Write` and `WriteBatch` calls on one stream, cut at any byte, is received as exactly the messages whose frames are whole |
| `Batch.FlagByteIsAlwaysThere` | server/conn.go:334 | on any prefix of such a stream the flag byte can be indexed |
| `Batch.BufferPool.Get` | server/conn.go:31-46 | a buffer taken from a pool is empty, of the pooled size unless the pool keeps grown buffers, and no longer pooled |
| `Batch.Outbound.Write` | server/conn.go:212-217 | writes exactly one sealed frame, or a prefix of it on a broken transport |
| `Batch.Outbound.WriteBatch` | server/conn.go:149-181 | refuses when closed, writes nothing for an empty list, else exactly one sealed batch of this call's bytes; pooled buffers are empty again and none has grown |
| `Batch.Outbound.WritePacket` | server/conn.go:184-209 | refuses when closed, else exactly one sealed frame of this packet's header and body; its buffers are empty again whatever their size, and the two pools stay disjoint |
| `ServerConn.PassConsumes` | server/conn.go:118-146 | a pass that loops has consumed at least five bytes; a packet is returned only when spawned |
| `ServerConn.ReadPacket` | server/conn.go:118-146 | the recursion stops on every finite stream under any interference, and returns a packet only when spawned |
| `ServerConn.WriteThenRead` | server/conn.go:212-217 | `Write` followed by `read` is the identity on payloads |
| `ServerConn.ReadPanicsIff` | server/conn.go:328-334 | `read` panics if and only if the next frame has length zero |
| `WireDelivery.ReadOpensFrame` | server/conn.go:328-373 | for every flag byte, body and codec `read` consumes one frame and returns its body, decompressed if bit 1 is set, as it is or decoded according to bit 0; it fails exactly if decompressing or decoding does |
| `ServerConn.LastShieldWins` | server/conn.go:485-489 | the shield ID becomes that of the last shield in the registry |
| `ServerConn.NoShieldKeepsId` | server/conn.go:485-489 | without a shield it does not change |
| `Handshake.ResidueConserves` | server/conn.go:386-420 | the kept and the consumed packets together are the arrivals, as multisets |
| `Handshake.StartGameKeeps` | server/conn.go:432-478 | handling StartGame advances the script by one stage and publishes the IDs, or fails without being connected |
| `Handshake.ItemRegistryKeeps` | server/conn.go:481-495 | the same for ItemRegistry, which exists only from protocol 776 on |
| `Handshake.PlayStatusKeeps` | server/conn.go:509-517 | PlayStatus completes the script and is kept; a second one is the panic |
| `Handshake.HandleAllKeeps` | server/conn.go:386-420 | the whole loop keeps order, publication and conservation however it ends |
| `Handshake.StepKeeps` | server/conn.go:118-146 | every pass, spawn and close keeps the connection invariant |
| `Handshake.DeliveryConservation` | server/conn.go:118-146 | in every run, packets returned then deferred are the converted pre-spawn arrivals less exactly the consumed three kinds, then the post-spawn arrivals, in order |
| `WireDelivery.ShieldIsKnown` | server/conn.go:481-495 | whenever a connection may read, the shield ID it decodes with is 0 or, once the handshake has handled the item registry, that of its last shield |
| `WireDelivery.FromWireToReader` | server/conn.go:328-373 | in every run, closed or not, the input is frames and a tail; the items read are what those frames stand for by their flag bits, codec and decoder, each decoded with the shield ID established before it; and they are what was returned or deferred, less the consumed ones |
| `ConnProgress.EverythingIsDelivered` | server/conn.go:118-146 | without SyncProtocol, from every reachable open state of a connection whose frames open and contain a handshake, passes without a transport error go on until exactly those items, less the consumed ones, have been returned in order |
| `ConnProgress.ReadPacketIsFirstResult` | server/conn.go:118-146 | a call makes passes, with interference before each, until one does not loop, and that pass is its result |
| `ConnProgress.CallSeesClose` | server/conn.go:119-121 | a call on a connection closed just before it fails without reading |
| `ConnProgress.CallSeesSpawn` | server/conn.go:122-128 | a call on a connection spawned just before it returns the first deferred packet |
| `ConnProgress.HandlingFailsIff` | server/conn.go:386-495 | handling a packet fails exactly on a PlayStatus behind a complete handshake or on a chunk radius request that cannot be written, which is made exactly at the stage before ChunkRadiusUpdated; then nothing is published |
| `ConnProgress.CloseItCloses` | server/conn.go:307-322 | closing takes effect at once and changes nothing else |
| `ConnProgress.ClosedIsFinal` | server/conn.go:307-322 | no continuation of a closed connection connects, spawns or changes its registers, and one never spawned reads and returns nothing more |
| `ConnProgress.ClosedMayGoOn` | server/conn.go:119-131 | a closed but spawned connection behaves like an open one as long as `select` takes the spawned case |
| `Handshake.HandshakeOrder` | server/conn.go:422-517 | in every run the handled packets are the first match of the script in the arrivals; connected means complete, one chunk radius request, and the game data and shield ID of those packets |
| `Handshake.StablePublication` | server/conn.go:422-517 | from connected on, game data and both IDs never change again |
| `Handshake.NothingReturnedBeforeSpawn` | server/conn.go:118-131 | in every run nothing is returned before spawn, and spawn never precedes connected |
| `Handshake.DoubleCloseIff` | server/conn.go:509-517 | in every run `connected` is closed twice if and only if a PlayStatus follows a complete script before spawn |
| `Handshake.OnePlayStatusIsSafe` | server/conn.go:509-517 | at most one PlayStatus before spawn excludes that panic on any path |
| `Handshake.TransferPathIsSafe` | session/session.go:176-193 | on the transfer path without SyncProtocol it never happens, whatever the server sends |
| `Scenarios.LoginPathCanPanic` | session/session.go:108-129 | for every protocol ID and either setting of SyncProtocol, a concrete server that sends PlayStatus twice causes it at login |
| `Handshake.PassEffects` | server/conn.go:118-146 | a pass changes the signals only by completing the handshake of an open connection, and then spawns it exactly if it has a callback |
| `Conn.Conn.HandlePacket` | server/conn.go:386-420 | the loop over converted packets equals the handshake machine's fold, early exits included |
| `Conn.Conn.HandleStartGame` | server/conn.go:432-478 | the new registers, and no game data if the request fails |
| `Conn.Conn.HandleItemRegistry` | server/conn.go:481-495 | the new registers, with the shield found by the loop |
| `Conn.Conn.HandlePlayStatus` | server/conn.go:509-517 | kept, connected, spawned if a callback is registered; panics if already connected |
| `Conn.Conn.ReadItem` | server/conn.go:328-373 | what `read` returns and how much of the stream it consumes |
| `Conn.Conn.MakeOnePass` | server/conn.go:118-146 | one pass on the object is one pass of the machine |
| `Conn.Conn.ReadPacket` | server/conn.go:118-146 | the recursive call equals the machine's and terminates |
| `Conn.Conn.SpawnPlayer` | server/conn.go:270-282 | refused once closed; a second spawn panics |
| `Conn.Conn.CloseWithError` | server/conn.go:307-322 | closes, and notifies the callback only on the first call and only if not connected |
| `Tracker.ClearRemoves` | session/tracker.go:70-127 | the clears remove from the client exactly what the tracker holds, in any iteration order |
| `Tracker.ClearEmpties` | session/tracker.go:70-127 | clearing a shadow that covers the client empties the client |
| `Tracker.TrackedIff` | session/tracker.go:33-68 | after any history the tracker holds a thing if and only if its last announcement has not been withdrawn; every boss event announces and none withdraws |
| `Tracker.ShownIff` | session/tracker.go:33-127 | the same for what the client shows, which minds whom an effect is for and what a boss event says |
| `Tracker.CoversIff` | session/tracker.go:33-68 | the tracker covers the client at every moment of a history if and only if no other entity ever loses an effect the player has at that moment |
| `Tracker.EffectLostIff` | session/tracker.go:47-52 | after any history the player has an effect the tracker does not know if and only if its removal from another entity was the last packet about that effect |
| `Tracker.RestIsCovered` | session/tracker.go:33-68 | boss bars, entities, players and scoreboards are covered whatever the history |
| `Tracker.ClearLeavesLost` | session/session.go:363-369 | the clear after any history leaves exactly those lost effects and nothing else |
| `Tracker.ClearEmptiesIff` | session/session.go:363-369 | the clear after a history empties the client if and only if the history has lost no effect |
| `Tracker.ForeignRemovalLeavesEffect` | session/tracker.go:47-52 | a two-packet history after which the clear leaves an effect behind |
| `Tracker.ClearMakesFreshStart` | session/session.go:363-369 | the clear makes the client indistinguishable, on every continuation, from one that saw only what follows, if and only if no effect was lost before it |
| `Tracker.RemnantGoneIff` | session/session.go:363-369 | leftover effects make no difference to the client any more if and only if later packets gave or took every one of them |
| `Tracker.Each` | session/tracker.go:71-77 | visits every element of a set exactly once, in some order |
| `Tracker.Shadow.HandlePacket` | session/tracker.go:33-68 | the five sets after a packet, including the loop over player list entries |
| `Tracker.Shadow.ClearEffects` | session/tracker.go:81-91 | one removal per tracked effect for the local player, then none tracked |
| `Tracker.Shadow.ClearEntities` | session/tracker.go:93-101 | one removal per tracked entity, then none tracked |
| `Tracker.Shadow.ClearBossBars` | session/tracker.go:70-79 | one hide per tracked boss bar, then none tracked |
| `Tracker.Shadow.ClearPlayers` | session/tracker.go:103-117 | one list with every tracked player, then none tracked |
| `Tracker.Shadow.ClearScoreboards` | session/tracker.go:119-127 | one removal per tracked objective, then none tracked |
| `Tracker.Shadow.ClearAll` | session/session.go:363-369 | the tracker ends empty and the client is sent the clearing packets of what it held, in the source's order |
| `SessionProofs.StepCore` | session/session.go:154-333 | every step of a session keeps the invariant behind the theorems below |
| `SessionProofs.SingleOpenServer` | session/session.go:288-309 | in every run every connection but the newest is closed, and the newest too once the session is |
| `SessionProofs.NoDialAfterClose` | session/session.go:271-293 | after the session is closed no continuation creates a connection or leaves one open |
| `SessionProofs.TransferOutcomes` | session/session.go:154-195 | in every run each transfer has reported at most once, and exactly once if and only if it got no callback or its connection connected or closed |
| `SessionProofs.SecondTransferSupersedes` | session/session.go:154-195 | a transfer begun while another connects closes that connection and fires its failure hook at once |
| `SessionProofs.BoundedFallback` | session/session.go:312-333 | in every run fallbacks exceed completed transfers by at most one, and one is active exactly when it began after the last completion |
| `SessionProofs.SecondFailureEndsSession` | session/handler.go:28-40 | a failure of the current server during a fallback closes the session and every connection and ends the server loop |
| `SessionOutcomes.FirstFailureFallsBack` | session/session.go:312-333 | in every run the first failure of the current server in a window closes it and goes on with a new connection that carries an unreported transfer; if discovery, dial or connect fails or the processor cancels, the session ends |
| `SessionOutcomes.SupersededFailureIsForgotten` | session/handler.go:29-32 | in every run the failure of a superseded connection changes nothing but what the loop reads next |
| `SessionOutcomes.TransferOutcome` | session/session.go:154-195 | every outcome of a transfer from every reachable state: the connections, the attempts, the old connection closed whatever follows, and nothing else |
| `SessionOutcomes.TransferPacketTransfers` | session/handler.go:57-60 | in every run a Transfer packet closes the server it came from and connects to the next |
| `SessionOutcomes.CompletionReports` | session/session.go:176-193 | in every run a completed handshake reports its own transfer, as a completion that ends a fallback if the player could be spawned, else as a failure |
| `SessionOutcomes.TurnsHappen` | session/handler.go:18-95 | in every run a loop that has picked a connection takes its turn, and a transfer that is asked for is made |
| `SessionOutcomes.LoopingTurnOutcome` | server/conn.go:118-146 | a turn whose pass loops without completing a transfer changes that connection alone |
| `SessionOutcomes.LoginOutcome` | session/session.go:99-106 | the login dial creates the first connection and starts the loop, or ends it |
| `SessionOutcomes.SpawnLoginIff` | session/session.go:108-129 | in every run the login connection is spawned if and only if it has connected, is open and is not yet spawned, and then no transfer has replaced it |
| `SessionOutcomes.LoopTopOutcome` | session/handler.go:20-28 | in every run the loop takes up the newest connection, or ends with the session |
| `SessionOutcomes.CloseSessionOutcome` | session/session.go:271-284 | in every run closing the session closes every connection, cancels its context and fails the transfer in progress |
| `SessionOutcomes.ClientGoneEndsLoop` | session/handler.go:21-25 | a client that goes away ends the loop and the session the next time the loop comes to its top |
| `SessionOutcomes.CloseServerOutcome` | server/conn.go:307-322 | in every run closing one connection closes that one and fails the transfer that was waiting for it |
| `SessionProofs.TransferIsolation` | session/session.go:176-193 | in every run the tracker is the fold of exactly the packets delivered from the connection spawned last, and the client shows what that connection alone would have made it show on top of the effects the clears left, whatever the effect packets were |
| `SessionDelivery.ItemOutcome` | session/handler.go:42-94 | every item the loop takes: its game packets, converted with SyncProtocol, are tracked and, if the write succeeds, shown; a Transfer packet transfers; a failed write ends session and loop; nothing else changes |
| `SessionDelivery.GameIsTracked` | session/handler.go:63-81 | without SyncProtocol an uncancelled game packet is tracked and shown as it is |
| `SessionDelivery.GamesAreGamesIn` | session/handler.go:70-76 | the packets tracked are exactly the game packets, in order |
| `SessionDelivery.DeliveredIsWhatWasTaken` | session/handler.go:27-95 | in every run the items taken from a connection are those it has handed out, and the packets delivered from it are those its uncancelled items stand for, in order |
| `SessionDelivery.TrackerIsWhatWasTaken` | session/handler.go:63-76 | in every run the tracker is the fold of what the items of the connection spawned last stand for |
| `SessionProofs.FullIsolationIff` | session/session.go:176-193 | in every run of an open session the earlier servers make no difference to the client if and only if the current one has reset every effect they left |
| `SessionProofs.LeftAfterIff` | session/tracker.go:81-91 | an effect is left after a connection if and only if that connection lost it, or it was left before and was neither reset nor tracked for somebody else |
| `SessionProofs.NothingLeftIff` | session/session.go:363-369 | all clears so far were complete if and only if no connection before them lost an effect |
| `SessionProofs.CompletionClears` | session/session.go:182-191 | a completed handshake of a transfer moves the stage to the current connection with nothing tracked, exactly the left effects shown, nothing at all if none was lost, and ends a fallback |
| `Scenarios.TransferCanComplete` | session/session.go:154-195 | for every protocol ID and either setting of SyncProtocol, a concrete run whose transfer completes: one post hook, the old server closed, the new one open and spawned, nothing tracked |
| `Scenarios.LoginCanComplete` | session/session.go:99-129 | for every protocol ID and either setting of SyncProtocol, a concrete login that ends with the player spawned |
| `Scenarios.SecondTransferIsNotRefused` | session/session.go:154-195 | a concrete run in which a second transfer closes the connection of the first, which fails, and starts its own |
| `SessionPanics.CrashIff` | session/handler.go:18-95 | in every run the process is down if and only if a connection has panicked; a double close is exactly a PlayStatus overrun, and without SyncProtocol never on a connection that carries a transfer |
| `Sessions.PlayerSession.DialServer` | session/session.go:288-309 | refused when the context is done; closes the old connection even if the transport then fails |
| `Sessions.PlayerSession.Transfer` | session/session.go:154-195 | every outcome of a transfer call, with the hook it fires or the callback it leaves |
| `Sessions.PlayerSession.CloseWithError` | session/session.go:271-284 | effective once: closes the current server and cancels the context |
| `Sessions.PlayerSession.StartFallback` | session/session.go:312-333 | every outcome of a fallback, started at most once per window |
| `Sessions.PlayerSession.TransferConnected` | session/session.go:176-193 | clear, spawn, then exactly one of the two hooks; the client's view is computed from the packets written |
| `Sessions.PlayerSession.ForwardPacket` | session/handler.go:63-81 | the converted packets are tracked, then the packet is written as received; a failed write closes the session |
| `Sessions.PlayerSession.ReadError` | session/handler.go:29-39 | a superseded connection is forgotten, the current one triggers the fallback |
| `Sessions.PlayerSession.ServerTurn` | session/handler.go:18-95 | one turn of the server loop on the object is one turn of the machine |
| `Sessions.PlayerSession.LoginServer` | session/session.go:99-106 | the login dial, after which the server loop runs unless it failed |
| `Sessions.PlayerSession.SpawnPlayer` | session/session.go:108-129 | the login connection is spawned if it has connected and is open |
| `Sessions.PlayerSession.PickServer` | session/handler.go:20-28 | the loop ends with the session or picks the current connection |
| `Sessions.PlayerSession.Do` | session/handler.go:18-95 | whatever happens to the object is recorded, and the object stays where the recorded run leads |
| `Sessions.PlayerSession.RunsReach` | session/session.go:271-309 | hence the fields of the object satisfy the theorems: one open server, at most one report per transfer, isolation, the fallback flag |
| `ClientPipeline.ForwardedIsImage` | session/handler.go:187-206 | the forwarded list is the in-order image of the uncancelled contexts, one payload each |
| `ClientPipeline.ContextsIff` | session/handler.go:210-257 | a batch decodes if and only if every payload has a known ID and is readable unless it is left raw |
| `ClientPipeline.ContextsAre` | session/handler.go:165-174 | its contexts are those of the payloads that do not vanish, in order, with the parsed or the upgraded packet |
| `ClientPipeline.BatchOutcome` | session/handler.go:158-257 | end to end: when a batch is sent, and for every payload that neither vanishes nor is cancelled, in order, exactly what is sent for it |
| `ClientPipeline.SyncedLegacyClient` | session/handler.go:178-205 | under SyncProtocol everything sent for a legacy client is its own packet, edited, in its own protocol |
| `ClientPipeline.NoLegacyRawForwarded` | session/handler.go:210-257 | without SyncProtocol everything forwarded for a legacy client is a fresh encoding of an upgraded packet of the batch |
| `ClientPipeline.UpToDateClient` | session/handler.go:193-205 | for an up-to-date client exactly the marked decoded packets are re-encoded and the rest pass byte for byte |
| `ClientPipeline.ForwardPanicsIff` | session/handler.go:193-204 | forwarding panics if and only if an uncancelled context of a legacy client has no decoded packet |
| `ClientPipeline.MissingPacketIff` | session/handler.go:158-257 | a batch that decodes is refused if and only if SyncProtocol is on, the client is legacy and an uncancelled payload is not configured to be decoded |
| `ClientPipeline.SyncedLegacyClientIsRefused` | session/handler.go:193-204 | a concrete such batch |
| `ContextPool.Pool.Take` | session/processor.go:46-51 | the context is clean apart from what was put in, no longer pooled, and no other pooled context changed |
| `ContextPool.Pool.Return` | session/processor.go:53-59 | the context is clean again when it enters the pool |
| `ContextPool.Pipeline.MakeContexts` | session/handler.go:165-174 | contexts of a batch are pairwise distinct, outside the pool, uncancelled and unmodified |
| `ContextPool.Pipeline.ForwardAll` | session/handler.go:187-206 | the loop over live objects forwards what the value-level pipeline does, and returns to the pool exactly the cancelled and the raw-forwarded contexts |
| `ContextPool.Pipeline.HandleBatch` | session/handler.go:158-208 | one batch gives the value-level result and leaves a clean pool |
| `ContextPool.Pipeline.HandleBatches` | session/handler.go:158-208 | over any number of batches each is handled as if it were the only one |
| `ConnCache.CacheAgreement` | transport/spectral.go:31-61 | in every interleaving the cached connection is the newest one established to its address and its watcher is pending |
| `ConnCache.StaleWatcherIsHarmless` | transport/quic.go:63-71 | the watcher of a superseded connection never changes the cache |
| `ConnCache.OnlyLiveRemain` | transport/spectral.go:45-53 | once the watchers of all dead connections have run, in any order, only live connections are cached |
| `ConnCache.DialOutcome` | transport/spectral.go:31-61 | every outcome of a dial: which connection is used, what is cached, established, watched and failed afterwards |
| `ConnCache.EvictOutcome` | transport/spectral.go:45-53 | an eviction waits for the death of its connection and removes that one alone |
| `ConnCache.DieOutcome` | transport/spectral.go:46 | a connection that dies stays cached until its eviction runs |
| `ConnCache.StepKeepsSingleIff` | transport/spectral.go:31-61 | with one live connection to an address, a step makes a second one if and only if it is a successful dial of an uncached address whose live connection has had a stream fail |
| `ConnCache.SingleConnectionIff` | transport/spectral.go:13-61 | a run keeps a single connection per server throughout if and only if it never makes such a dial |
| `ConnCache.DialDuplicatesIff` | transport/quic.go:34-79 | the same of one dial from any reachable state |
| `ConnCache.OneUsableConnectionPerAddress` | transport/quic.go:34-79 | in every run a live connection without a failed stream is the cached one, and of two live ones the earlier has had a stream fail |
| `ConnCache.FailedStreamLeavesTwoConnections` | transport/spectral.go:55-59 | a failed stream followed by a dial leaves two live connections to one address |
| `ConnCache.Transport.Dial` | transport/spectral.go:31-61 | the cache after every outcome, and the connection a stream was opened on |
| `ConnCache.Transport.RunWatcher` | transport/spectral.go:45-53 | evicts its own connection and no other |
| `ApiCodec.StringRoundTripIff` | api/packet/encoding.go:10-23 | a string is read back from in front of anything if and only if its length fits 32 bits |
| `ApiCodec.EncodeShape` | api/client.go:71-86 | the bytes of every packet: its ID, first byte lowest, and its fields, each string behind its length |
| `ApiCodec.TruncatedString` | api/packet/encoding.go:10-16 | reading a string never fails: a short length is 0 and missing bytes are zeros |
| `ApiCodec.DecodeFailsIff` | api/client.go:43-68 | decoding fails exactly on a payload without a packet ID or with an unknown one |
| `ApiCodec.DecodeUndoesEncodeIff` | api/client.go:43-86 | a framable packet is decoded as encoded, except that a ConnectionResponse is only if its code is 0 |
| `ApiCodec.ApiStream` | api/client.go:43-86 | any sequence of packets on one stream, cut at any byte, is read back as exactly those whose frames are whole |
| `ApiCodec.Client.TakeString` | api/packet/encoding.go:10-16 | the string and what is left of the buffer, zero-padded when truncated |
| `ApiCodec.Client.WritePacket` | api/client.go:71-86 | appends one frame with the packet's encoding; pooled buffers are empty again |
| `ApiCodec.Client.ReadPacket` | api/client.go:43-68 | consumes one frame and decodes it, or fails |
| `ChunkSquare.CentreIff` | session/session.go:351-352 | truncation picks the player's own chunk except just below a chunk border at a negative fraction, where it picks the next |
| `ChunkSquare.PlayerChunkIsSent` | session/session.go:350-362 | the player's own chunk is in the square for every position |
| `ChunkSquare.SendChunks` | session/session.go:350-362 | the nested loops send exactly the 81 distinct chunks of the radius-4 square without leaving 32 bits |

## Left out

- Races inside the steps taken as atomic, such as OnConnect being registered after DoConnect has been answered (session/session.go:171-176) or a dial that overlaps the session's close.
- Numeric packet IDs of the game protocol, and the fields of StartGame beyond a name, a dimension and a position: they are copied unchanged and belong to a foreign library.
- Conn.Conn.HandleStartGame: the chunk radius request is an outcome and a count, not bytes on the wire; the write path is modelled separately in `Batch.dfy`.
- Sessions.PlayerSession.ServerTurn: the connections inside the session object are values rather than `Conn.Conn` objects, so aliasing between the session and its connections is not modelled; the session cache, latency and flush contents are not either.
- Batch.Outbound.WritePacket: the marshalled header and body are parameters, and the pool of header objects, whose packet ID is overwritten on every use, is not modelled; nor is the JSON of the connection request.
- Raw server payloads: they are forwarded but neither tracked nor part of the modelled client view.
- Animations, empty chunk contents, logging, tickers, discovery, the session registry, the API server and the listener: they would only add easy members.
- Memory exhaustion from a large declared frame or string length.
