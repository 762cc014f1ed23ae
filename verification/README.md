# Verified model of moddable-tailscale

A Dafny model of the parts of moddable-tailscale where several activities share
state, with proofs of what they keep in every run.

The project follows the repository's own division:

- **The TCP and UDP transport.** The byte ring is a class over an array
  (`ByteRings`), the native TCP record a class over two rings (`TcpRecords`), and the
  UDP record a class over two circular arrays (`UdpQueues`). `TcpStreams` puts the
  worker task, the machine's delivery messages, the stream closure and the manager
  into one step system, one step for each region between lock and unlock, and
  interleaves them freely; `TcpWriters`, `TcpReaders` and `TcpEndings` prove what its
  streams come to. `UdpLifetimes` does the same for a UDP record, which two threads
  trigger. `StreamBridges` runs the stream closure on the native record
  as the imperative code it is. `Shutdown` is the stop path of the manager with both
  kinds of mutex explicit, and `ShutdownEnds` bounds it.
- **WebSocket sending and the frame pump.** `WebSocketQueues` (steps and invariants),
  `CloseFrames` and `QueueLoops` (what follows from them), `WebSocketStreams` (the
  class), `FramePumps` and `CameraStreams` likewise, and `PumpOverSocket`, which
  replaces the callbacks the pump assumes by the answers the queue is proved to give.
- **The hub.** `RegistryJson` (what is persisted and how it is read back),
  `CameraRegistry` (the event handlers, and the end of the process at any moment),
  `RegistryFiles` (starts), `RegistryPersistence` and `StreamRate` (two invariants over
  all runs), `RegistryExamples` (runs that end badly), `HubEvents` and `CameraHubs`
  (the closures over their shared variables, and the events that call them).
- **Connection state machines.** `TailnetStart` and `Tailnets`, `Registration`,
  `KeyRotation`, and `RotatedNodes`, which runs the registrations of an engine on the
  keys that are rotated under it.
- **Codecs with both ends in the repository.** `LineFraming` and `QrBits`.

Code that changes state step by step is a class whose methods are proved equal to a
function on an abstract state (`View()`); the theorems are about runs of these
functions. A run is a sequence of steps in which a step that is not enabled when its
turn comes is skipped, so the theorems range over every interleaving. What comes from
outside (the clock, the network, the client's write allowance, `readyState`, the
outcome of an allocation or of a file operation) is a parameter of the step.

## Where the code does less than one might expect

Each of these has its exact condition and a run that shows it:

- A chunk written to a TCP stream that is unfinished when FINAL is delivered is settled
  if and only if its writer still has credit; otherwise its promise stays pending
  (`TcpEndings.SettledIffCredit`, `TcpEndings.LongChunkIsStranded`).
- The promise of a WebSocket stream write also resolves when the message is dropped:
  exactly for the messages still queued when the socket goes to state 3
  (`WebSocketQueues.StreamWritesAlwaysResolve`, `WebSocketQueues.DroppedWriteResolves`).
- A close frame is split if and only if, when its first byte is written (by `close`
  itself with nothing queued, or by a later grant), the allowance does not cover all of
  it (`CloseFrames.WholeExactlyWhenItFits`, `CloseFrames.CloseIsSplitAtOnce`,
  `CloseFrames.CloseIsSplitLater`).
- A pending promise of a tailnet can still be settled if and only if the tailnet is
  neither closing nor closed; `rebind` right after `close` makes one that cannot
  (`TailnetStart.PendingCanSettle`, `TailnetStart.RebindAfterCloseIsAccepted`).
- A BLE response is cut if and only if it contains `@stackchan `; one over USB never is
  (`LineFraming.ResponseIsRecovered`, `LineFraming.BleResponseIsCut`).
- A start never marks anything dirty, so it may leave a registry file that differs from
  memory: if and only if the frame sizes in it are not those of the frame files, as
  after a process killed between the two (`RegistryFiles.LoadedStateIsSaved`,
  `RegistryExamples.OldSizesHappen`).
- If the `send` of a command throws on an open socket, the command stays in the history
  but nothing is marked dirty for it. After a command of the API, and after a viewer
  that joins or leaves, it is saved or going to be if and only if the persistence timer
  was armed before; after a hello, or a stored frame that removed a viewer, it always
  is going to be, since the event itself marks the hub
  (`RegistryPersistence.ThrowingApiCommand`, `RegistryPersistence.ThrowingViewer`,
  `RegistryPersistence.ThrowingHello`, `RegistryPersistence.ThrowingFrame`,
  `RegistryExamples.UnsavedAfterFlush`, `RegistryExamples.UnsavedAfterFailedFlush`).
- An accepted registration ends the announcement of a replaced key for good if and only
  if the stored key could be erased; otherwise the engine of the next boot names it
  again (`RotatedNodes.AcceptedKeyReturns`, `RotatedNodes.ReplacedKeyIsUsed`).
- Of the native calls on a UDP socket only `write` does not look whether there still is
  a record: after FINAL nothing uses it if and only if nothing is written
  (`UdpLifetimes.RecordLifetime`, `UdpLifetimes.LateWrite`).

## Model

| member | source | states |
|---|---|---|
| ByteRings.ByteRing.Write | native/tailscale-native.c:139-148 | the unread bytes, as one sequence, grow by exactly the source at the end, wherever the wrap falls |
| ByteRings.ByteRing.CopyIn | native/tailscale-native.c:143-144 | the two block copies put each byte in its circular slot and overwrite no unread byte |
| ByteRings.ByteRing.Read | native/tailscale-native.c:150-159 | the oldest bytes leave in order and the rest stays as it was |
| TcpRecords.TcpRecord.TakeChunk | native/tailscale-native.c:575-587 | the worker takes the oldest bytes, at most 1400, and none once closing is set |
| TcpRecords.TcpRecord.Store | native/tailscale-native.c:606-610 | received bytes are appended to the receive side |
| TcpRecords.TcpRecord.Trigger | native/tailscale-native.c:548-556 | events join the mask, and a message is posted exactly when the mask was empty |
| TcpRecords.TcpRecord.Deliver | native/tailscale-native.c:515-524 | the mask is taken whole, with the two amounts of the same instant |
| TcpRecords.TcpRecord.ReadBytes | native/tailscale-native.c:731-772 | in every format and for every kind of argument a read is nothing, an error that changes nothing, or exactly the oldest bytes it asked for |
| TcpRecords.TcpRecord.WriteBytes | native/tailscale-native.c:774-797 | in every format a write is refused unless all of it fits, and answers the room that is left |
| TcpStreams.StreamsAreFifo | native/tailscale-native.c:558-616 | in every interleaving the bytes handed to the socket are a prefix of those written, these of the accepted chunks, and the bytes enqueued to the reader a prefix of those received |
| TcpStreams.CreditIsSafe | modules/tailscale.js:224-272 | in every reachable state the cached lengths promise no more than the rings hold, and no stream read was an invalid size and no stream write would have blocked |
| TcpStreams.RecordLifetime | native/tailscale-native.c:515-556 | at most one delivery message is outstanding, one exactly when the mask is nonzero and its post is done, FINAL is delivered at most once, and nobody touches or can reach the record after it |
| TcpStreams.FinalIsLast | native/tailscale-native.c:535-545 | after FINAL no run delivers, transfers or changes anything |
| TcpStreams.NoLostWakeup | native/tailscale-native.c:548-616 | in every reachable state, when a ring holds more bytes or more room than JS was told or is being told, the matching event is pending or the worker is on its way to trigger it (for room: unless it has left its loop) |
| TcpWriters.BlockedWriterIsWoken | modules/tailscale.js:244-254 | while the worker keeps succeeding and nobody closes, a writer waiting for credit is served within 211 turns of the party it waits for, in every interleaving |
| TcpReaders.ReaderIsServed | modules/tailscale.js:224-236 | while the worker keeps succeeding and nobody closes, a reader that wants data gets some within six turns of the party it waits for, whenever the receive ring holds any |
| TcpEndings.CloseEnds | native/tailscale-native.c:612-637 | once a close is requested or the worker has failed, FINAL is delivered within 53 turns of the worker and then of the machine, in every interleaving |
| TcpEndings.SettledIffCredit | modules/tailscale.js:244-254 | after FINAL an unfinished chunk is settled in some later run if and only if the writer still has credit |
| TcpEndings.LongChunkIsStranded | modules/tailscale.js:244-254 | a chunk longer than the ring, written to an open connection that is then closed, is such a chunk for ever |
| TcpWriters.UninterruptedWrites | modules/tailscale.js:244-254 | with nothing in between, two turns of the write loop write exactly all that fits |
| StreamBridges.StreamBridge.DrainReadable | modules/tailscale.js:224-230 | exactly the announced bytes move from the ring to the reader, or none |
| StreamBridges.StreamBridge.OnReadable | modules/tailscale.js:264-267 | no byte is lost or reordered between the reader and the ring |
| StreamBridges.StreamBridge.OnWritable | modules/tailscale.js:268-276 | credit is the announced room, and only the first call opens the streams |
| StreamBridges.StreamBridge.OnError | modules/tailscale.js:214-222 | the first error wins and rejects the opening only before it happened |
| StreamBridges.StreamBridge.WriteChunk | modules/tailscale.js:240-254 | the write loop fills the ring with the next bytes of the chunk, exactly as many as fit, stops before the end only with no credit, and throws exactly when it has credit for a connection that is gone |
| UdpQueues.UdpRecord.Receive | native/tailscale-native.c:866-890 | a packet is clipped and queued, and a full queue loses its oldest packet and counts it |
| UdpQueues.UdpRecord.ReadPacket | native/tailscale-native.c:1017-1030 | the oldest unread packet leaves |
| UdpQueues.UdpRecord.WritePacket | native/tailscale-native.c:1042-1071 | an illegal size, address or port throws whatever the queue, a closing or full record refuses, and any other packet is queued last |
| UdpQueues.UdpRecord.Take | native/tailscale-native.c:904-918 | the worker takes the oldest unsent packet, even when it then finds that it must close |
| UdpQueues.Put | native/tailscale-native.c:877-884 | filling slot (start + count) mod 4 appends to the circular window |
| UdpQueues.NewestUnreadPackets | native/tailscale-native.c:866-890 | after any interleaving the queue is the newest unread arrivals in order; accepted = read + queued + dropped; the counter is the drops modulo 2^32 |
| UdpQueues.DropsOnlyWhenFull | native/tailscale-native.c:876-880 | a packet is dropped exactly by an arrival that finds four unread ones, and it is the oldest of these |
| UdpQueues.AttemptsArePrefix | native/tailscale-native.c:904-923 | transmit attempts are a prefix of the accepted writes |
| UdpLifetimes.RecordLifetime | native/tailscale-native.c:829-864 | although the worker and the receive callback both trigger: at most one delivery message is outstanding and one is on its way exactly while the mask is nonzero, FINAL is delivered at most once, the record is freed exactly then, and after that it is used if and only if JS still writes |
| UdpLifetimes.FinalIsLast | native/tailscale-native.c:843-853 | after FINAL no run delivers or changes anything |
| UdpLifetimes.NoLostDatagram | native/tailscale-native.c:866-890 | in every reachable state, while the queue holds a packet JS was not told of, READABLE is pending with its message posted or about to be, or the receive callback is about to trigger it |
| UdpLifetimes.NoSleepOverWork | native/tailscale-native.c:903-923 | in every reachable state the worker waits without a token while a packet is to be sent or a close requested only if the thread that asked is about to give it one, whatever time-outs happen |
| UdpLifetimes.CloseEnds | native/tailscale-native.c:903-939 | once a close is requested or the socket could not be created, FINAL is delivered within 17 turns of the worker and then of the machine, in every interleaving |
| UdpLifetimes.LateWrite | native/tailscale-native.c:1042-1057 | a run in which JS writes after FINAL |
| Shutdown.ShutdownIsSafe | native/tailscale-native.c:193-201 | in every interleaving the stop path destroys the engine only when no worker is using it, and every record it dereferences is live |
| Shutdown.NoRegistrationAfterStop | native/tailscale-native.c:685-696 | once stop is requested no transport registers again |
| Shutdown.LockOrderPreventsDeadlock | native/tailscale-native.c:177-201 | mutexes are taken manager first: the holder of a record mutex always has an enabled step, the holder of the manager mutex has one or waits for such a holder |
| ShutdownEnds.ManagerCloses | native/tailscale-native.c:193-201 | once stop is requested the manager has closed after at most 71 turns of whoever its close waits for: its own, and while it waits for its transports, those of their workers (or of the JS thread that is creating one), in every interleaving |
| ShutdownEnds.OwedTurnIsEnabled | native/tailscale-native.c:193-201 | until then such a turn can be taken, or some mutex is held |
| WebSocketQueues.MessagesArriveInOrder | examples/cores3-websocket/websocket-stream.js:98-138 | for every run and client: the fragments reassemble to the sent messages in send order, never mixed, each within the allowance of its time, all but the last of a message marked more (section 5.4 of RFC 6455) |
| WebSocketQueues.CloseIsLast | examples/cores3-websocket/websocket-stream.js:252-276 | nothing is accepted after the close frame |
| WebSocketQueues.SendsAreAnsweredOnce | examples/cores3-websocket/websocket-stream.js:226-250 | every send gets one answer when it leaves the queue: onComplete if and only if its last fragment was written, onError otherwise |
| WebSocketQueues.StreamWritesAlwaysResolve | examples/cores3-websocket/websocket-stream.js:278-288 | a stream write resolves exactly when its message leaves the queue; without delivery exactly for the messages still queued when the socket went to state 3, and before that it tells delivery |
| WebSocketQueues.DroppedWriteResolves | examples/cores3-websocket/websocket-stream.js:140-152 | a run in which a write resolves and was dropped |
| WebSocketQueues.ClosedIsFinal | examples/cores3-websocket/websocket-stream.js:140-152 | in state 3 nothing is written or accepted any more, the queue only shrinks and closed was resolved once |
| CloseFrames.ClosePayloadRoundTrip | examples/cores3-websocket/websocket-stream.js:67-76 | the close handler reads back the code and the reason that close built |
| CloseFrames.WholeExactlyWhenItFits | examples/cores3-websocket/websocket-stream.js:111-137 | over runs, for every message and so for the close frame: it leaves as one fragment if and only if the allowance at its first write covers all of it, and split if and only if it does not |
| CloseFrames.WrittenUnderAllowance | examples/cores3-websocket/websocket-stream.js:111-137 | that allowance is the one of the state that wrote the fragment, in which the message was the next to go |
| CloseFrames.CloseIsSplitAtOnce | examples/cores3-websocket/websocket-stream.js:309-330 | a run that splits the close frame when it is sent |
| CloseFrames.CloseIsSplitLater | examples/cores3-websocket/websocket-stream.js:126-134 | a run that splits a queued close frame by a later grant |
| QueueLoops.DrainingIsARun | examples/cores3-websocket/websocket-stream.js:111-137 | the loop of onWritable is a run of single passes, so the invariants hold whenever it calls back |
| QueueLoops.DroppingIsARun | examples/cores3-websocket/websocket-stream.js:278-288 | the loop of the failing drain is a run of single drops and empties the queue |
| QueueLoops.GrantsDrainTheQueue | examples/cores3-websocket/websocket-stream.js:98-138 | whatever else is sent, a message is completely written after as many grants above zero as bytes and messages were queued up to it |
| WebSocketStreams.WebSocketStream.Write | examples/cores3-websocket/websocket-stream.js:309-330 | writes whole, splits or queues, and tells whether it queued |
| WebSocketStreams.WebSocketStream.SendMessage | examples/cores3-websocket/websocket-stream.js:226-250 | refused in states 2 and 3, otherwise the step of the queue |
| WebSocketStreams.WebSocketStream.CloseSocket | examples/cores3-websocket/websocket-stream.js:252-276 | invalid codes and long reasons throw, and only state 1 sends the frame and goes to state 2 |
| WebSocketStreams.WebSocketStream.DrainBuffers | examples/cores3-websocket/websocket-stream.js:111-137 | the loop ends in the state of the recursive drain |
| WebSocketStreams.WebSocketStream.Writable | examples/cores3-websocket/websocket-stream.js:98-138 | the first call opens and writes nothing, every later one drains |
| WebSocketStreams.WebSocketStream.Fail | examples/cores3-websocket/websocket-stream.js:140-152 | goes to state 3 once and answers everything queued |
| WebSocketStreams.WebSocketStream.DrainWritable | examples/cores3-websocket/websocket-stream.js:278-288 | the loop answers everything queued and leaves the state of the recursive drop |
| FramePumps.PumpIsSafe | examples/m5camera-websocket/camera-stream.js:92-210 | in every run: one write in flight at most and never with an armed send timer, one settlement that disarms everything, no stall before it, and every frame taken closed exactly once, the one in flight when its answer comes |
| FramePumps.PacingBound | examples/cores3-websocket/camera-stream.js:131-182 | at a constant interval and however late timers fire, a window of any length holds at most floor(length / interval) + 3 attempts |
| FramePumps.PacingBoundIsTight | examples/m5camera-websocket/camera-stream.js:127-141 | three attempts within two milliseconds do happen at every interval above two |
| FramePumps.BoundIsLinear | examples/m5camera-websocket/camera-stream.js:135-141 | the distance kept between attempts i and i + k is (k - 2) intervals |
| CameraStreams.CameraStream.SendOne | examples/m5camera-websocket/camera-stream.js:169-206 | the send timer's callback is the pump's step |
| CameraStreams.CameraStream.Answered | examples/m5camera-websocket/camera-stream.js:143-163 | either answer of the write in flight is the pump's step and leaves none in flight |
| CameraStreams.CameraStream.WriteTimeout | examples/m5camera-websocket/camera-stream.js:122-125 | a write timeout settles the pump and keeps the frame for its answer |
| CameraStreams.CameraStream.SetFPS | examples/cores3-websocket/camera-stream.js:49-58 | throws outside 1 to 8 and changes the interval otherwise |
| PumpOverSocket.FramesAreClosedOnce | examples/m5camera-websocket/camera-stream.js:143-206 | over the real queue every OV2640 frame is closed exactly once, except the one whose message is still queued and unanswered |
| PumpOverSocket.FailureReleasesFrames | examples/m5camera-websocket/camera-stream.js:157-163 | once the socket has failed and drained, every frame ever taken was closed exactly once, whether or not the pump had timed out |
| RegistryJson.DeviceRoundTrip | tools/camera-server.ts:661-704 | whatever is persisted of a record passes the validators of the next start unchanged, no command dropped |
| RegistryJson.CommandRoundTrip | tools/camera-server.ts:706-721 | likewise for one history entry |
| RegistryJson.CommandsRoundTrip | tools/camera-server.ts:689-693 | the loop over the persisted commands drops none of them |
| RegistryPersistence.PersistenceInvariant | tools/camera-server.ts:151-198 | in every reachable state, also after the process was killed at any moment: when nothing is marked and no throwing send has left an entry behind, the registry file is the projection of all records (after such an end, until the next flush, but for frame sizes), every device not marked has its exact frame on disk, and a dirty hub has its timer armed unless an explicit flush has failed since |
| RegistryPersistence.FlushThenLoadRestores | tools/camera-server.ts:171-257 | from every reachable state in which no throwing send has left an entry behind, a flush and a start give back every device, offline, in order, with the same history, commands and frame; only a device without a frame may find one that a killed process left |
| RegistryPersistence.LoadRestores | tools/camera-server.ts:200-257 | a start from the files of a clean hub restores exactly its records |
| RegistryFiles.LoadRestoresEveryDevice | tools/camera-server.ts:200-257 | a start from a registry the hub wrote, with whatever frame files, brings every device back with the frame its file holds |
| RegistryFiles.LoadedStateIsSaved | tools/camera-server.ts:229-241 | after a start the registry file matches memory if and only if its frame sizes are those of the usable frame files |
| RegistryExamples.OldSizesHappen | tools/camera-server.ts:177-196 | a run after which it does not: a process killed between the frame file and the registry file |
| RegistryPersistence.CrashRestoresAnEarlierState | tools/camera-server.ts:171-257 | a hub killed at any moment, also in the middle of a flush, starts again with the devices of an earlier state of the run, in order and with their commands, each with the frame its file now holds |
| RegistryPersistence.ThrowingApiCommand | tools/camera-server.ts:293-327 | in every reachable state, a command of the API whose send throws, and that the files do not hold, heads the history and is saved or has a flush to come if and only if the persistence timer was armed before |
| RegistryPersistence.ThrowingViewer | tools/camera-server.ts:336-400 | the same for the rate asked when a viewer joins or leaves |
| RegistryPersistence.ThrowingHello | tools/camera-server.ts:421-459 | after a hello whose rate could not be asked the entry always has a flush to come |
| RegistryPersistence.ThrowingFrame | tools/camera-server.ts:352-383 | after a stored frame that removed a viewer likewise |
| RegistryPersistence.CalmRuns | tools/camera-server.ts:314-350 | in a run in which no send throws no entry is left behind and no socket counts as failed |
| RegistryExamples.UnsavedAfterFlush | tools/camera-server.ts:314-326 | a run after which such a command of the API is lost: nothing else was waiting |
| RegistryExamples.UnsavedAfterFailedFlush | tools/camera-server.ts:314-326 | another one: something was dirty, but after a failed explicit flush no timer was armed |
| RegistryPersistence.CrashedWhileDirty | tools/camera-server.ts:171-198 | the weaker cases need a process that ended with something unsaved |
| RegistryPersistence.FlushKeepsInv | tools/camera-server.ts:171-198 | a flush that succeeds keeps the invariant, leaves nothing dirty and no timer, and makes the registry file exact |
| RegistryPersistence.FailedFlushKeepsInv | tools/camera-server.ts:171-198 | a flush that throws after any of its frame files keeps the invariant |
| StreamRate.StreamRateAgreement | tools/camera-server.ts:329-350 | in every reachable state the desired rate is the demand of the viewers, the last rate asked for viewers over the open current socket is that rate unless asking has thrown there and nothing was asked since, and no two consecutive ones are equal over a socket where it never has |
| StreamRate.HelloReplaces | tools/camera-server.ts:421-459 | a reconnect takes the record off its old socket and closes that |
| StreamRate.ReplacedSocketIsHarmless | tools/camera-server.ts:521-529 | in every later state the close event of a replaced socket changes no record and marks nothing dirty |
| StreamRate.CloseLeavesNoneOpen | tools/camera-server.ts:639-648 | after close no device is on an open socket |
| CameraHubs.CameraHub.constructor | tools/camera-server.ts:145-149 | a new hub is what its files load to, and sound if a hub wrote them |
| CameraHubs.CameraHub.LoadState | tools/camera-server.ts:200-257 | the loop over the persisted devices, invalid ones ignored |
| CameraHubs.CameraHub.Flush | tools/camera-server.ts:171-198 | done means everything written and nothing dirty; otherwise only some dirty frames were written and the rest is as it was |
| CameraHubs.CameraHub.TimerFired | tools/camera-server.ts:151-162 | a failing flush arms the timer again |
| CameraHubs.CameraHub.DesiredViewerFps | tools/camera-server.ts:329-334 | 8 if and only if some viewer wants detail, else 2 or 1 by whether there is any |
| CameraHubs.CameraHub.PublishFrame | tools/camera-server.ts:352-383 | invalid or oversized frames change nothing; others are stored and marked, and viewers that fail are removed |
| CameraHubs.CameraHub.FindEntry | tools/camera-server.ts:462-464 | finds the newest entry that the answer names |
| CameraHubs.CameraHub.CloseSockets | tools/camera-server.ts:639-648 | the loop of close takes every device on an open socket offline |
| CameraHubs.CameraHub.HelloArrived | tools/camera-server.ts:421-459 | the hub stays sound; the device is on the new socket, its old one is closed, its frame is kept, and that is marked |
| CameraHubs.CameraHub.FrameArrived | tools/camera-server.ts:352-383 | the hub stays sound; an invalid or oversized frame changes nothing, any other is shown and marked, exactly the failing viewers are gone, and no other device changes |
| CameraHubs.CameraHub.AckArrived | tools/camera-server.ts:461-476 | the hub stays sound; the newest entry the answer names, and it alone, takes the outcome, and an answer that names none changes nothing |
| CameraHubs.CameraHub.SocketGone | tools/camera-server.ts:521-529 | the hub stays sound; a record goes offline exactly if it was on that socket, and a stale close changes no record and marks nothing |
| CameraHubs.CameraHub.ViewersChanged | tools/camera-server.ts:385-400 | the hub stays sound, so the rate is the new demand; the viewers are the new ones and no other device changes |
| CameraHubs.CameraHub.CommandRequest | tools/camera-server.ts:293-327 | the hub stays sound; an offline device refuses, otherwise the command heads the history, which keeps 20, and is going to be saved unless its send threw: then nothing else has changed |
| CameraHubs.CameraHub.FlushNow | tools/camera-server.ts:171-198 | the hub stays sound; done means nothing dirty and the file exact, and it fails only if a file cannot be written |
| CameraHubs.CameraHub.TimerEvent | tools/camera-server.ts:151-162 | the hub stays sound; either all is saved or the timer is armed again |
| CameraHubs.CameraHub.CloseHub | tools/camera-server.ts:639-653 | the hub stays sound and no device is on an open socket |
| TailnetStart.StartIsExact | modules/tailscale.js:365-440 | however waits for the user alternate with other states, start settles as an independent reference says: a time-out exactly at the first poll outside the waiting states, not connected and not failed, with the whole timeout charged |
| TailnetStart.WaitingIsFree | README.md:298-301 | stretching a wait for login or approval by any amount changes no charge |
| TailnetStart.SettledStays | modules/tailscale.js:410-419 | start settles once |
| TailnetStart.RebindIsExact | modules/tailscale.js:420-427 | a rebind promise is fulfilled by the first connected poll 500 ms after the request or later, or fails as the reference says |
| TailnetStart.PromisesMeetTheState | modules/tailscale.js:383-427 | while neither closing nor closed, no promise is pending in the connected or the error state |
| TailnetStart.MadeWhileClosingIsStranded | modules/tailscale.js:369-381 | a promise pending while the tailnet closes stays pending in every later run |
| TailnetStart.MadeBeforeClosingSettles | modules/tailscale.js:456-471 | any other pending promise would be settled by one close and by one error |
| TailnetStart.PendingCanSettle | modules/tailscale.js:365-471 | in every reachable state a pending promise, of start or of rebind, is settled in some later run if and only if the tailnet is neither closing nor closed |
| TailnetStart.RebindAfterCloseIsAccepted | modules/tailscale.js:442-454 | rebind after close on a connected tailnet makes such a promise |
| Tailnets.Tailnet.StartUp | modules/tailscale.js:430-440 | throws unless idle, otherwise the step |
| Tailnets.Tailnet.PollOnce | modules/tailscale.js:365-428 | one poll is the step of the model |
| Tailnets.Tailnet.RebindNow | modules/tailscale.js:442-454 | makes a promise only when connected and none is pending |
| Tailnets.Tailnet.CloseDown | modules/tailscale.js:456-471 | rejects what is pending and starts closing, once |
| Registration.PublishedStateIsPending | patches/0001-moddable-esp-idf6.patch:804-839 | in every run a published NEEDS_AUTH has a URL and NEEDS_APPROVAL a pending approval |
| Registration.FollowupIsTheOpenUrl | patches/0001-moddable-esp-idf6.patch:611-642 | through timeouts, garbage, errors and reconnects every request carries as Followup exactly the login URL that the answers before it left open |
| Registration.OnlyOkClears | patches/0001-moddable-esp-idf6.patch:729-765 | the pending markers are cleared only by an accepting answer, except that a new login URL replaces the old one and withdraws the approval |
| Registration.RotationIsAnnounced | patches/0001-moddable-esp-idf6.patch:1424-1435 | a rotated node registers with the key it replaced and without its auth key until an answer accepts it |
| Registration.AskMatchesReference | patches/0001-moddable-esp-idf6.patch:1437-1450 | what one answer does to the pending markers, said by the kind of answer |
| Registration.Coordinator.DoRegister | patches/0001-moddable-esp-idf6.patch:656-773 | the fields left by each outcome |
| Registration.Coordinator.RegisterOnce | patches/0001-moddable-esp-idf6.patch:804-839 | after the register case the published state asks only for what is pending |
| Registration.Coordinator.ShakeOnce | patches/0001-moddable-esp-idf6.patch:781-790 | the handshake publishes REGISTERING only while nothing is pending |
| Registration.Coordinator.RetreatOnce | patches/0001-moddable-esp-idf6.patch:886-892 | the reconnect wait publishes what is pending |
| KeyRotation.OldKeyIsTheReplacedKey | patches/0001-moddable-esp-idf6.patch:444-499 | in every run of rotations, registrations, faults and reboots every blob has 32 bytes, the stored old key is the one the last rotation replaced, and a running node announces it or none |
| KeyRotation.OldKeyIsKept | patches/0001-moddable-esp-idf6.patch:449-462 | until a registration or factory reset clears it the old key stays, and no second rotation commits |
| KeyRotation.RotationSurvivesReboot | patches/0001-moddable-esp-idf6.patch:419-424 | after a rotation, a power loss and a boot the node announces the key it replaced |
| KeyRotation.OneAttemptPerConnection | native/tailscale-native.c:233-256 | between two rotation attempts there is an observed connection or a boot; closing the Tailnet and constructing a new one counts as a boot here, since it starts a new manager |
| KeyRotation.KeyStore.RotateNodeKey | patches/0001-moddable-esp-idf6.patch:444-487 | from any stored blobs: the keys change exactly without a fault, with no old key stored and a 32-byte public key, and then to the new pair with the replaced key kept |
| RotatedNodes.RequestsCarryTheStoredKeys | patches/0001-moddable-esp-idf6.patch:1424-1435 | in every run of the manager, the keys and the coordinator together: the next registration has the stored node key, and as old key the one the last rotation replaced while that is stored and no answer has accepted since the engine was made; then it has no auth key |
| RotatedNodes.RotationIsAnnouncedUntilAccepted | native/tailscale-native.c:233-256 | after a committed rotation, through any failures, restarts and reboots, every registration until an accepting answer (or a factory reset) names the replaced key, carries no auth key and registers the new key, and no other rotation commits |
| RotatedNodes.AcceptedKeyReturns | patches/0001-moddable-esp-idf6.patch:489-499 | after the accepting answer the running engine names it no more, and the next boot names it again if and only if it could not be erased |
| RotatedNodes.ReplacedKeyIsUsed | native/tailscale-native.c:233-256 | a run to a node that is about to register with a replaced key |
| LineFraming.ProvisioningProtocol.Feed | examples/cores3-websocket/provisioning-protocol.js:15-33 | over the limit everything buffered is dropped and refused, otherwise the lines are handled in order and the rest is kept |
| LineFraming.ResponseParser.AcceptChunk | tools/camera-server.ts:1182-1200 | the responses of the complete lines are taken in order and the rest is kept |
| LineFraming.LinesConcat | examples/cores3-websocket/provisioning-protocol.js:22-27 | a text may be cut anywhere: what the first part leaves over begins the second |
| LineFraming.FeedIsChunkingFree | examples/cores3-websocket/provisioning-protocol.js:15-33 | no refusal if and only if no residue and chunk together exceed 1400, and then the outcome depends on the text alone |
| LineFraming.SplitsAgree | examples/cores3-websocket/provisioning-protocol.js:15-33 | two splits of one input without a refusal handle the same requests and leave the same newline-free residue |
| LineFraming.AcceptIsChunkingFree | tools/camera-server.ts:1182-1200 | the page's parser depends on the text alone |
| LineFraming.ResponseIsRecovered | tools/camera-server.ts:1186-1190 | a USB response is found whatever it holds, a BLE one if and only if it does not hold the prefix |
| LineFraming.BleResponseIsCut | tools/camera-server.ts:1186-1190 | the answer to a request of type `@stackchan ` repeats that type, and is cut |
| LineFraming.ResponsesSurviveResplitting | examples/cores3-websocket/usb-provisioning.js:23-29 | framed responses, split again in any way, are recovered exactly |
| LineFraming.RequestIsRecovered | examples/cores3-websocket/provisioning-protocol.js:26-31 | a request reaches the device with or without the prefix |
| LineFraming.NotificationsResplit | examples/cores3-websocket/ble-provisioning.js:97-102 | the notifications of a response are a split of it |
| QrBits.Pack | examples/cores3-websocket/main.js:86-91 | the bytes hold exactly the dark cells, most significant bit first, padding clear |
| QrBits.Print | examples/cores3-websocket/main.js:92-94 | the loop prints two digits a byte |
| QrBits.Parse | tools/camera-server.ts:1138-1140 | the loop reads two digits a byte |
| QrBits.HexRoundTrip | tools/camera-server.ts:1138-1140 | printed bytes pass the page's test and parse back to themselves and to nothing else |
| QrBits.GridRoundTrip | tools/camera-server.ts:1141-1141 | for every n and every n by n grid the page draws exactly the dark cells |
| QrBits.Transfer | tools/camera-server.ts:1136-1141 | pack, print and parse in sequence give the page the packed cells |

## Left out

- TcpWriters.BlockedWriterIsWoken: covers the time until the connection fails or closes; `TcpEndings.SettledIffCredit` says what happens to a writer then. A turn is a step of the party waited for; that each party gets turns is the scheduler's part.
- TcpStreams.CreditIsSafe: takes promise jobs to run after a delivery returns and the exposed socket to be used by the streams alone; the engine receives at most the bytes it was asked for.
- Shutdown.ShutdownIsSafe: covers the stop path; the destruction of the engine for a key rotation, and the constructors' own connected test, which they make on a pointer read before they take the manager's mutex, are not part of this model.
- ShutdownEnds.ManagerCloses: a turn is a step of the party waited for; that it gets turns, and in which order waiting tasks get a mutex, is the scheduler's part. An engine call and the wait for a packet end by themselves.
- UdpLifetimes.RecordLifetime: takes `microlink_udp_close` to return only when no receive callback is running, and counts a write after FINAL instead of following it.
- KeyRotation.OldKeyIsKept: takes `nvs_commit` as the atomic point of a rotation.
- RegistryPersistence.PersistenceInvariant: takes the replacement of one file as atomic; the removal before the rename on Windows is not part of this model.
- StreamRate.StreamRateAgreement: a rate asked through the API is no viewer's rate.
- CameraHubs.CameraHub.HelloArrived: takes the `send` of `device.ready` not to throw, whatever the socket's state; if it did, the record would stay registered on that socket, nothing would be marked, and the close of the socket would not take the device offline.
- LineFraming.ResponsesSurviveResplitting: over characters; the byte decoder in front of the page's parser and the JSON parser behind it are not part of this model.
- Delivery of all written bytes before a close: `close` drops unsent ring bytes, so only prefixes are claimed.
- The manager record's own release and its creation failures; the parsing of addresses.
- MicroLink, lwIP, WireGuard, DERP, Noise and all cryptography: foreign code with short assumed contracts.
- The states of `ml_coord_task` that the patch does not show: steps that leave the pending markers alone.
- Whether `microlink_init` saves the keys it generates when only some were missing.
- The WebSocket read side under back-pressure, and what a client callback might do inside a client write.
- Application callbacks (`onFrameSent`, `onStateChanged`, `onAuthRequired`, log) are taken not to throw and not to call back into the object that called them.
- One event reads the clock once in the model, several times in the code.
- JSON text: persisted values are taken as the values they denote, and a history entry's extra properties are not kept.
- Payload and configuration validation, summaries and HTTP routing, HTML and drawing, camera drivers, JPEG encoding, Wi-Fi and time: each is settled by reading one branch or is input and output.
