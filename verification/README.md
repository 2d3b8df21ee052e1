# Verified model of an HTTP/3 server's request and response paths

The project models the parts of the server in which several threads share state, and proves what they
keep in every run.

- **Uploads** (`FileWriter`, `WriterFailures`, `WriterRuns`, `RequestTable`, `UploadRuns`, `UploadCompletion`).
  Body packets arrive before or after the headers are known, are kept in memory, put before a file, or appended
  by a FIFO worker, while FIN races with queued writes. The file writer is a lock-protected object with a buffer,
  a sticky first failure, a declared or learned length and a success-only callback.
- **Request disposition** (`Disposition`, `DispositionProofs`, `DispositionProgress`, `SharedDispositions`,
  `ProtocolCalls`, `Middleware`). Network loop, header stage, middleware workers, signal receiver and response
  workers share a pending/ready/rejected map, a signal channel, an injection queue that requeues, an in-flight
  set and the request table. Cancels, registrations and connection closes are split into their atomic actions;
  all interleavings are covered.
- **Response delivery and stream opening** (`Delivery`, `ServedItems`, `DeliveryRuns`, `RegularRuns`,
  `DownstreamRuns`, `StreamTurns`, `EndOfStream`, `Client`, `BodyQueue`, `Chunker`, `ChunkCounter`). One chunker
  splits all bodies; the network loop pops, sends what the transport takes, parks the rest, retries blocked
  openings and honours resets. A stream starts with an optional interim 100 header, then carries one response,
  or one opening and its data.
- **Retry tokens** (`RetryToken`): a byte codec with a MAC, a time window and address binding, for the address
  validation of sections 8.1.2 and 8.1.4 of RFC 9000; the 8-byte floor on the client's destination connection
  ID is section 7.2.
- **Multicast, routes, header admission, worker affinity** (`Multicast`, `Routes`, `Headers`, `WorkerPool`).

Runs are sequences of steps folded by a total `Apply`; a step that is not enabled changes nothing, and every
answer of a device, the transport or a callback is an argument of the step, so a statement about all step
sequences is a statement about all schedules and all answers. Objects that the code updates in place are
classes whose methods are tied to the functions the runs are made of.

The transport contract: a body send takes at most what it is given; with 512 bytes of capacity and something
to send it takes at least one byte or fails for good; an end of stream is taken only with the last byte; every
error other than "done" is final for the stream. A device may take any part of what is flushed and may fail at
every call. HMAC is a deterministic function with a 32-byte result. Readers of response bodies are stable.
Each stream carries one valid header section, no data after its terminal event, and one response.

Where the code differs from what one would expect, the model follows the code: routes of one path are equal
when their methods are, because path and scheme are compared with themselves; a parked chunk whose final send
fails keeps its count; a response or interim header that is not accepted is never sent again; a response
without a body that is not marked as ending never ends its stream; only the chunker is held back by a full
queue; a body chunk that fails to be sent is put back without its bytes; an unknown, cancelled or already
consumed registration counts as answered.

`dafny verify dfyconfig.toml` checks the whole project.

## Model

| member | source | states |
|---|---|---|
| `UploadRuns.CallbackMeansWholeUpload` | src/route_handler/request_temp_table.rs:262-314 | In every run (any packets, any moment at which header processing switches the entry from memory to file, any declared length, any device answers, any interleaving of file worker, FIN and application): a callback registered on the handed-out writer is dispatched only when FIN was seen and the disk holds all packets in arrival order, so the non-sticky "already completed" error cannot hide a lost packet. |
| `UploadRuns.HandedWriterIsDecided` | src/file_writer.rs:278-332 | Once no bytes wait at the file worker, a handed-out writer has failed, or has completed with exactly the received bytes on disk; it stores no live callback. |
| `UploadRuns.StoredBodyReachesHandler` | src/route_handler/request_temp_table.rs:676-724 | In every run the finished event hands out the whole body, or a writer for it, exactly when header processing stored the entry in memory, created its file, or nothing was received. |
| `UploadRuns.WriterIsHandedExactly` | src/route_handler/request_temp_table.rs:676-724 | The event carries a writer exactly when header processing created the file, and the storage mode it stored. |
| `UploadRuns.WriterIsHandedUnlessRaced` | src/route_handler/request_temp_table.rs:412-506 | With a file wanted and available the writer is handed out exactly when no packet created the entry between the lookup that missed it and the insertion; after such a race the whole body is in memory. |
| `UploadRuns.RacedFileExample` | src/route_handler/request_temp_table.rs:412-419 | The race, as a concrete run: the file is not used and the body is handed out in memory. |
| `UploadRuns.StreamedBodyReachesListener` | src/route_handler/request_temp_table.rs:271-284 | On a streamed route the event carries what came before header processing; with the packets the listener was told of, in order, that is everything received exactly when the route has a listener or nothing came after its headers. |
| `UploadRuns.FileListenerHearsTheRest` | src/route_handler/request_temp_table.rs:290-300 | The listener of a file route was told, in order, of exactly the bytes that came after header processing. |
| `UploadCompletion.WillingUploadCompletes` | src/file_writer.rs:223-332 | In every run whose devices refuse nothing, with a declared length that is absent or the received size: once no bytes wait, a handed-out file is unfailed, complete and exactly the received bytes; no callback was discarded, and with no thread settling each registered one was dispatched once or overwritten by a later one. |
| `UploadCompletion.UnobstructedUploadCanComplete` | src/route_handler/request_temp_table.rs:221-262 | Progress: from every state of such an upload that saw FIN and its headers a schedule hands out the event and empties the queue: the whole body in memory, or a complete file exactly where one was wanted, available and not lost to the race. |
| `UploadCompletion.UploadCanBeHandedOut` | src/route_handler/request_temp_table.rs:221-262 | Progress without any assumption on devices or lengths: after FIN and header processing an upload that was not cancelled can always be handed out. |
| `UploadRuns.MissingFileLosesBody` | src/route_handler/request_temp_table.rs:612-654 | The failing case, as a concrete run: a file route without its file hands out neither bytes nor writer. |
| `UploadRuns.StepInv` | src/route_handler/request_temp_table.rs:221-314 | Every step of every thread keeps: each received byte is written, queued or in memory, in order, unless the writer failed or refused it. |
| `RequestTable.PartialReq.WriteBodyPacket` | src/route_handler/request_temp_table.rs:262-314 | One packet goes to memory, or flushes the in-memory bytes in front of the file and is queued for the file worker, as the storage mode says; the subscriber is given the packet in stream and file mode, and only there. |
| `RequestTable.PartialReq.FlushAndPrefixWithTempBuffer` | src/route_handler/request_temp_table.rs:612-633 | The in-memory bytes leave the entry and are put before the file's content when there is a file. |
| `RequestTable.PartialReq.WriteFile` | src/route_handler/request_temp_table.rs:634-654 | The packet is queued at the file worker and counted, only when a file is open. |
| `RequestTable.PartialReq.ExtendData` | src/route_handler/request_temp_table.rs:655-660 | The packet is appended to the in-memory body and counted. |
| `RequestTable.PartialReq.CompleteEntry` | src/route_handler/request_temp_table.rs:123-150 | Header completion replaces storage mode, file and subscriber, and keeps the bytes already received. |
| `RequestTable.PartialReq.ToFinishedEvent` | src/route_handler/request_temp_table.rs:676-724 | The finished event announces the received size to the writer and carries body, size and writer of the entry. |
| `RequestTable.FileWorker.ServeOne` | src/file_writer/event_loop.rs:96-100 | The worker serves its queue in FIFO order, one write at a time. |
| `FileWriter.LockedCorrect` | src/file_writer.rs:223-246 | For any device answers one locked region keeps the writer sound (counter equals content, never above a known length; complete means empty buffer and exact size), keeps the first failure and a complete file's bytes, and, unfailed, does to the content what the plain byte-sequence operation does; the callback is taken, kept or discarded as the outcome says. When a region fails is the `WriterFailures` rows. |
| `FileWriter.FinishCheckSound` | src/file_writer.rs:278-291 | The first half of FIN keeps the writer sound whatever size it announces. |
| `WriterFailures.WriteFailsExactly` | src/file_writer.rs:430-461 | A write leaves the file unfailed exactly when the file is complete, or the bytes fit the counter (2^64) and the known length, which they may fill, and the device takes them and, if they fill it, the last flush. |
| `WriterFailures.PrefixFailsExactly` | src/file_writer.rs:361-404 | The same for bytes put in front: flush, reopening, truncation and write must succeed, and the size may reach the known length. |
| `WriterFailures.FlushFailsExactly` | src/file_writer.rs:418-429 | A flush leaves the file unfailed exactly when the device takes it, and the last flush if the file is full. |
| `WriterFailures.SetLengthFailsExactly` | src/file_writer.rs:301-316 | Setting a length fails the file exactly when it is the first and below what was written, or a full file cannot be flushed. |
| `WriterFailures.RegisterFailsExactly` | src/file_writer.rs:317-332 | A registration fails the file exactly when a full file cannot be flushed. |
| `WriterFailures.FinishFailsExactly` | src/file_writer.rs:278-299 | FIN leaves the file unfailed exactly when its size is the declared one, or none was declared, not less than what was written, and a file it fills can be flushed. |
| `WriterFailures.WriteAnswersExactly` | src/file_writer.rs:433-461 | Which error a write answers, cause by cause in the order of the code, and whether it reports completion; a refused write to a complete file is not kept as a failure. |
| `WriterFailures.PrefixAnswersExactly` | src/file_writer.rs:361-404 | Which error bytes put in front answer, cause by cause. |
| `WriterFailures.OtherAnswersExactly` | src/file_writer.rs:301-332 | What flush, registration and length setting answer. |
| `WriterFailures.FailedWriterAnswersFirstFailure` | src/file_writer.rs:150-161 | A failed writer answers its first failure to every call and changes no byte. |
| `WriterFailures.BytesAfterRegion` | src/file_writer.rs:361-461 | Whatever the device answers: a write leaves the old bytes alone or followed by the new; only putting bytes in front can tear the file, to a part of the intended content; nothing else changes a byte. |
| `FileWriter.FileWriterHandle.WriteOnDisk` | src/file_writer.rs:430-476 | The method's new state is the locked write region, whose failures and answers `WriterFailures` states exactly, followed by settlement: content, counter, completion, failure, callback, registry entry and dispatch. |
| `FileWriter.FileWriterHandle.AppendBuffered` | src/file_writer.rs:433-461 | The checks, the buffered write and the completion attempt, in this order, including overflow and excess. |
| `FileWriter.FileWriterHandle.TransferBytesFromTempFile` | src/file_writer.rs:361-417 | The method's new state is the locked prefix region followed by settlement. |
| `FileWriter.FileWriterHandle.RewriteWithPrefix` | src/file_writer.rs:370-404 | Flush, reread, rewrite behind the prefix; every early return and every torn state after truncation. |
| `FileWriter.FileWriterHandle.FlushFile` | src/file_writer.rs:418-429 | The method's new state is the locked flush region followed by settlement. |
| `FileWriter.FileWriterHandle.SetFileLength` | src/file_writer.rs:301-316 | A first length is recorded, a later one ignored; completion is attempted either way. |
| `FileWriter.FileWriterHandle.RegisterFinishingCallback` | src/file_writer.rs:317-332 | A registration overwrites a stored callback and is dispatched at once on a complete writer. |
| `FileWriter.FileWriterHandle.FinishReceived` | src/file_writer.rs:278-299 | A size other than the declared one is a sticky failure that discards the callback; otherwise it becomes the length. |
| `FileWriter.FileWriterHandle.Complete` | src/file_writer.rs:223-246 | Completion needs a known length, an equal counter and a successful flush; excess is a failure. |
| `FileWriter.FileWriterHandle.CompletionCallback` | src/file_writer.rs:266-275 | The callback is taken for dispatch on success, dropped on failure, kept otherwise. |
| `FileWriter.FileWriterHandle.Settle` | src/file_writer.rs:250-265 | A terminal outcome leaves the pending registry; a taken callback is dispatched once. |
| `FileWriter.FileWriterHandle.RecordFailure` | src/file_writer.rs:156-161 | Only the first failure is stored, and it is the one reported. |
| `FileWriter.FileWriterHandle.IsFileWritten` | src/file_writer.rs:336-345 | On a sound writer the answer "written" means that nothing is left in the buffer and that the disk holds exactly as many bytes as the declared or received length. |
| `WriterRuns.WriterRefinesFile` | src/file_writer.rs:361-476 | Any script of writes, prefix insertions, flushes, length settings and registrations that ends unfailed leaves exactly the content, length and completion of a plain byte sequence, however the device split disk and buffer. |
| `WriterRuns.CompleteFileNeverChanges` | src/file_writer.rs:223-246 | Once complete: empty buffer, disk of exactly the declared length, and no later operation changes a byte. |
| `WriterRuns.CallbacksConserved` | src/file_writer.rs:250-332 | In every interleaving each registered callback is in exactly one place: stored, in a settling thread, dispatched, overwritten or discarded; dispatch is at most once and only for a file complete on disk. |
| `WriterRuns.QuietWriterIsSettled` | src/file_writer.rs:250-299 | Outside the window of a failed FIN a stored callback implies a live writer; with no thread settling, a writer is out of the registry exactly when terminal. |
| `WriterRuns.FirstFailureIsKept` | src/file_writer.rs:150-161 | The first failure, a known length and a complete file survive every later step of every thread. |
| `WriterRuns.CompleteWriterCanFailLater` | src/file_writer.rs:278-289 | "A complete writer never fails" does not hold: a concrete run. |
| `WriterRuns.CompleteWriterFailsExactly` | src/file_writer.rs:162-171 | A complete writer fails exactly on a refused flush or on a FIN of another size. |
| `DispositionProofs.HandlerRunsOnlyForAdmittedRequests` | src/response_queue_processing/response_buffer_table.rs:80-121 | In every interleaving the handler runs at most once per request, and only if the path was admitted, the route exists, every middleware continued, FIN was accepted, the signal arrived, and no cancel removed the key first; only an admitted path is ever marked or has its FIN accepted. |
| `DispositionProofs.DispositionIsExact` | src/response_queue_processing/response_buffer_table.rs:342-360 | A recorded disposition is pending exactly until the one signal arrives, and is then ready exactly when the request passes. |
| `DispositionProofs.InjectionsAreConserved` | src/response_queue_processing/response_worker.rs:85-98 | An accepted FIN's injection is always in exactly one of queue, worker, consumed or dropped; it is dropped only after a cancel, and then never consumed. |
| `DispositionProofs.OneRegisterAnswers` | src/response_queue_processing/response_buffer_table.rs:84-121 | After the signal a single registration removes the key and leads to the handler stage or to the discard, never back to the queue. |
| `DispositionProofs.NothingLeaks` | src/response_queue_processing/response_buffer_table.rs:123-140 | A request that ended and about which no thread and no channel holds anything has no disposition, no table entry and no in-flight mark, even when a middleware worker created the entry after the cancel. |
| `DispositionProofs.DrainedSystemIsEmpty` | src/route_handler/request_temp_table.rs:112-117 | With all threads idle, all channels empty and every begun request ended, the three shared structures are empty. |
| `DispositionProofs.ClosingLeavesOtherConnections` | src/server_init/quiche_http3_server.rs:988-1005 | Closing one connection, step by step, changes nothing held about any other connection's requests. |
| `DispositionProofs.ClosedConnectionStaysEmpty` | src/route_manager/inflight_streams_path_verifier.rs:72-78 | After the close no disposition and no in-flight mark of the connection exists, ever. |
| `DispositionProofs.StepInv` | src/header_queue_processing/middleware_worker.rs:96-195 | Every step of network loop, header stage, signal receiver and response workers keeps the protocol invariant of every request. |
| `DispositionProgress.NoStepSetsBack` | src/response_queue_processing/response_buffer_table.rs:347-358 | Each accepted request has a rank (header stage, place in the signal channel, response stage, place in the injection queue) that no step of any thread on any request raises. |
| `DispositionProgress.EveryAcceptedRequestCanBeAnswered` | src/response_queue_processing/response_worker.rs:85-98 | From every reachable state there is a schedule that answers or drops an accepted request; it is answered unless a cancel came first, and it reaches its handler whenever that is still possible. |
| `DispositionProgress.HandlerIsAheadExactly` | src/response_queue_processing/response_worker.rs:85-98 | Exactly when the handler of an accepted request can still run in some continuation: it did, a worker is on the way there, or the request passes, was not cancelled, its injection waits and its table entry is there or can still be made. |
| `DispositionProgress.FinIsAcceptedExactly` | src/server_init/quiche_http3_server.rs:607-626 | In every run the FIN of an open request is accepted exactly when its path was admitted at HEADERS, and cancels the request otherwise. |
| `DispositionProgress.DataSecuresTheHandler` | src/server_init/quiche_http3_server.rs:553-577 | An admitted, routed request whose middlewares all continue and that sent data before FIN gets its handler in some continuation, whether or not the middleware worker can store an entry. |
| `DispositionProgress.HelpAdvances` | src/response_queue_processing/response_buffer_table.rs:84-121 | Receiving until the signal arrives, then the injection's own next step, strictly lowers the rank. |
| `SharedDispositions.ResponseInjectionBuffer.Register` | src/response_queue_processing/response_buffer_table.rs:80-121 | An uninterrupted registration removes a decided state, asks for the handler exactly when it was ready, discards the entry when rejected, and hands the injection back exactly while pending. |
| `SharedDispositions.ResponseInjectionBuffer.BeginRequest` | src/response_queue_processing/response_buffer_table.rs:123-127 | A request is recorded as pending unless a disposition is already there. |
| `SharedDispositions.ResponseInjectionBuffer.CancelRequest` | src/response_queue_processing/response_buffer_table.rs:128-133 | Disposition and table entry of the key are gone; nothing else changes. |
| `SharedDispositions.ResponseInjectionBuffer.CancelConnection` | src/response_queue_processing/response_buffer_table.rs:134-140 | Exactly the connection's dispositions and entries are gone. |
| `SharedDispositions.ResponseInjectionBuffer.Receive` | src/response_queue_processing/response_buffer_table.rs:342-360 | A signal overwrites a live disposition; a late one discards the table entry instead. |
| `SharedDispositions.InFlightStreams.InsertStreamPath` | src/route_manager/inflight_streams_path_verifier.rs:50-71 | An admitted path marks its stream, any other leaves the set alone. |
| `SharedDispositions.InFlightStreams.IsFinishedRequestAValidPath` | src/route_manager/inflight_streams_path_verifier.rs:80-85 | The mark is answered and removed in one action, so it counts once. |
| `SharedDispositions.InFlightStreams.RemoveConnection` | src/route_manager/inflight_streams_path_verifier.rs:72-78 | Exactly the connection's marks are removed. |
| `SharedDispositions.CancelIsTwoSteps` | src/response_queue_processing/response_buffer_table.rs:128-133 | A cancel is the protocol's two separate removals (and the in-flight one) run in a row. |
| `SharedDispositions.PendingRegisterRequeues` | src/response_queue_processing/response_buffer_table.rs:111-119 | A registration that finds the request pending is the protocol's removal attempt, look and requeue run in a row. |
| `ProtocolCalls.HeadersAreTwoSteps` | src/server_init/quiche_http3_server.rs:525-540 | HEADERS, uninterrupted: pending, marked in flight exactly when the path is admitted, and queued for the header stage. |
| `ProtocolCalls.MarkedFinIsOneStep` | src/server_init/quiche_http3_server.rs:607-623 | The FIN of a marked stream uses the mark up and queues one injection. |
| `ProtocolCalls.UnmarkedFinIsCancel` | src/server_init/quiche_http3_server.rs:624-626 | The FIN of an unmarked stream is the cancel of its request and queues nothing. |
| `ProtocolCalls.LateSignalIsTwoSteps` | src/response_queue_processing/response_buffer_table.rs:342-360 | A signal without a disposition discards the table entry and changes no disposition. |
| `ProtocolCalls.ReadyRegisterHandles` | src/response_queue_processing/response_buffer_table.rs:80-121 | A ready registration with its entry takes disposition and entry out and runs the handler once. |
| `ProtocolCalls.ReadyRegisterWithoutEntry` | src/response_queue_processing/response_buffer_table.rs:80-121 | A ready registration without an entry is answered and runs no handler. |
| `ProtocolCalls.RejectedRegisterDiscards` | src/response_queue_processing/response_buffer_table.rs:100-110 | A rejected registration discards disposition and entry. |
| `ProtocolCalls.UnknownRegisterDrops` | src/response_queue_processing/response_buffer_table.rs:80-121 | A registration nobody knows is dropped and changes nothing else. |
| `ProtocolCalls.JobServes` | src/header_queue_processing/middleware_worker.rs:96-195 | One job from submission to its one signal: ready, with an entry unless storing fails, when the route exists and every middleware continues; rejected without touching the table otherwise. |
| `ProtocolCalls.CloseIsConnectionCancel` | src/response_queue_processing/response_buffer_table.rs:134-140 | Progress and effect of a close: undisturbed it runs to its end and removes exactly the connection's dispositions, entries and marks. |
| `Middleware.Worker.Serve` | src/header_queue_processing/middleware_worker.rs:96-195 | One job folds the headers through the chain and sends exactly one signal: ready with the entry in place, or rejected without touching the table. |
| `Middleware.ChainPassesIffClean` | src/header_queue_processing/middleware_worker.rs:106-160 | The chain yields headers exactly when every middleware was called and continued; only the last call can refuse. |
| `Middleware.FoldSplits` | src/header_queue_processing/middleware_worker.rs:106-113 | Running a chain is running its second part on the headers its first part returned. |
| `Middleware.FoldOfOne` | src/header_queue_processing/middleware_worker.rs:106-113 | No middleware leaves the headers alone; one middleware hands on the headers it returned; with the splitting law this fixes the chain. |
| `RegularRuns.ResponseIsConserved` | src/server_init/quiche_http3_server.rs:671-760 | In every run, until the transport fails or the stream is reset: bytes taken, parked rest, queued chunks and unread body are in this order the response body, and the tracker, once there, is (bytes taken, body length), after the last byte as before it. |
| `RegularRuns.ResponseIsAPrefixEndedOnce` | src/server_init/quiche_http3_server.rs:1291-1333 | At every moment, failures included, the bytes taken are a prefix of the body, an end of stream is passed at most once, and only when every byte was taken. |
| `RegularRuns.EndedResponseIsNeverChunked` | src/server_init/quiche_http3_server.rs:197-203 | A response that ends on its headers never enters the chunker and passes no body byte. |
| `ServedItems.AcceptedResponse` | src/server_init/quiche_http3_server.rs:197-203 | Accepted response headers pass the end of stream exactly when they are marked as ending or carry an empty body; any other body goes whole to the chunker with a fresh tracker. |
| `ServedItems.EmptyBodyExample` | src/server_init/quiche_http3_server.rs:795-796 | A response with an empty body ends on its headers and is not chunked. |
| `ServedItems.UnacceptedHeader` | src/server_init/quiche_http3_server.rs:799-911 | A header that was not accepted goes back in front and takes nothing; an opening refused for good resets its stream instead. |
| `ServedItems.FailedPartIsEmptied` | src/server_init/quiche_http3_server.rs:734-775 | A chunk or message whose send fails for good is put in front without its bytes. |
| `ServedItems.FailedRetry` | src/server_init/quiche_http3_server.rs:1462-1516 | A parked part is dropped when its retry fails; when only its end of stream fails it stays, and the tracker keeps its count. |
| `EndOfStream.EndIsAheadExactly` | src/server_init/quiche_http3_server.rs:671-760 | At every moment of every run: some continuation ends the response at the transport exactly when it is ended already, or it carries an end (on its headers or after a body) that was not offered yet, the transport lives and no refused header stands in front. |
| `EndOfStream.EndIsOfferedExactly` | src/route_handler.rs:852-901 | Decided when the response is queued: after its headers were accepted, and while the transport lives, reads, retries and sends can bring the end of stream to the transport exactly when the headers were marked as ending or carry a body, empty or not. |
| `EndOfStream.BodyCanBeDelivered` | src/server_init/quiche_http3_server.rs:671-760 | Progress: from every state of a body on its way a schedule of reads, retries and sends makes the transport take every byte and the one end of stream. |
| `EndOfStream.BareResponseExample` | src/route_handler.rs:894-901 | The failing response: no body and not marked as ending, as a GET route answers after a request that carried data; its headers are accepted and no continuation ever offers an end. |
| `RegularRuns.EndIsTakenExactly` | src/server_init/quiche_http3_server.rs:750-758 | The call that offers the end of stream decides it: in every continuation the response is ended exactly when the transport took the end at that call. |
| `RegularRuns.EndIsOfferedOnce` | src/server_init/quiche_http3_server.rs:750-758 | Once offered, the end of stream is never offered again, and what became of it never changes, however the run continues. |
| `RegularRuns.RefusedEndExample` | src/server_init/quiche_http3_server.rs:750-758 | The failing case, reached for every body of one chunk: all bytes taken, the end offered once and not taken. |
| `RegularRuns.BlockedHeaderIsRetriedExactly` | src/server_init/quiche_http3_server.rs:699-715 | A header the transport blocks on an idle stream is the next item served exactly when its mode is the stream opening; behind any other nothing is served. |
| `RegularRuns.BlockedResponseIsNeverRetried` | src/server_init/quiche_http3_server.rs:699-715 | In every continuation of a run whose response headers were not accepted they stay in front of the stream and the transport is passed nothing more; only a reset removes them. |
| `RegularRuns.BlockedResponseExample` | src/server_init/quiche_http3_server.rs:902-911 | The failing case, reached: the first send of the headers is blocked. |
| `RegularRuns.UnguardedRetryEndsEarlyExactly` | src/server_init/quiche_http3_server.rs:1498-1511 | Without the 512-byte guard the parked retry would end the stream early exactly when nothing is taken and the parked count plus the tracker equals the body length. |
| `RegularRuns.UnguardedRetryExample` | src/server_init/quiche_http3_server.rs:1498-1511 | A concrete stream where it does. |
| `RegularRuns.FlushSending` | src/server_init/quiche_http3_server.rs:1427-1516 | With the guard, every retry keeps conservation, the tracker and the single end of stream, or ends in failure. |
| `RegularRuns.PopSending` | src/server_init/quiche_http3_server.rs:721-760 | Serving a chunk keeps them too, whatever the transport takes. |
| `DownstreamRuns.DataFollowsOneOpening` | src/server_init/quiche_http3_server.rs:799-822 | On a downstream, data reaches the transport only after the opening was accepted, the opening is accepted at most once however often it blocks, what was taken is a prefix of what was published, and no end of stream is passed. |
| `DownstreamRuns.StreamDataIsConserved` | src/server_init/quiche_http3_server.rs:1249-1290 | While the stream is alive, bytes taken, parked rest and queued messages are in order everything published. |
| `StreamTurns.TurnIsAheadExactly` | src/server_init/quiche_http3_server.rs:699-715 | For both kinds of stream: a queued response or opening that has not been passed to the transport can still be, in some continuation, exactly when no refused interim header stands in front of the stream. |
| `StreamTurns.InterimAnswerDecidesTheTurn` | src/server_init/quiche_http3_server.rs:862-883 | The response or opening behind a queued interim 100 header gets its turn, in some continuation, exactly when the transport accepts that header at its one send. |
| `StreamTurns.TurnFollowsInterim` | src/route_handler.rs:170-203 | In every run a response or opening queued behind an interim header is passed to the transport only after that header was accepted. |
| `StreamTurns.BlockedInterimExample` | src/server_init/quiche_http3_server.rs:862-883 | The failing case, reached for every kind of stream: the interim header is blocked and stays. |
| `StreamTurns.NoHeadersAreParked` | src/server_init/quiche_http3_server.rs:1427-1460 | No run parks a part whose headers still have to go out, so that branch of the parked retry is never entered. |
| `StreamTurns.ResetSilencesTheStream` | src/server_init/quiche_http3_server.rs:1026-1041 | A requested reset is honoured by the next sweep whatever blocks the stream, interim header included; it empties every queue, and nothing is sent afterwards. |
| `Client.Client.SendPart` | src/server_init/quiche_http3_server.rs:1291-1333 | One chunk: what is taken is tracked, the rest is parked, a final error is reported; other streams are untouched. |
| `Client.Client.HandleWritable` | src/server_init/quiche_http3_server.rs:1427-1516 | The parked retry, headers first where a part still carries them, does to its stream exactly what the per-stream function says, and nothing to any other. |
| `Client.Client.ServeBody` | src/server_init/quiche_http3_server.rs:721-760 | Serving a body chunk, including the end of stream and the removal of the queues. |
| `Client.Client.ServeStreamData` | src/server_init/quiche_http3_server.rs:761-775 | Serving stream data; a failed one goes to the pending queue emptied of its bytes. |
| `Client.Client.ServeProgression` | src/server_init/quiche_http3_server.rs:776-790 | Serving a body-progression item, on the same terms. |
| `Client.Client.ServeHeader` | src/server_init/quiche_http3_server.rs:791-922 | Serving openings, interim 100 headers and response headers: acceptance, blocking and refusal of each. |
| `Client.Client.ServeResponseHeader` | src/server_init/quiche_http3_server.rs:823-861 | Response headers do to their stream what `ServedItems.AcceptedResponse` and `ServedItems.UnacceptedHeader` state field by field, and nothing to any other. |
| `Client.Client.TakeNext` | src/server_init/quiche_http3_server.rs:690-718 | What is served next: nothing past a parked part or a blocked item, except a blocked opening; high priority before low. |
| `Client.Client.ServeStream` | src/server_init/quiche_http3_server.rs:690-922 | One stream's turn of the send loop. |
| `Client.Client.HonourResets` | src/server_init/quiche_http3_server.rs:666-670 | Exactly the streams whose reset was requested are reset. |
| `Client.Client.ResetFailedStream` | src/server_init/quiche_http3_server.rs:1026-1041 | Shutdown, removal of headers mark, parked part, pending queue and dispatch entry. |
| `Client.Client.OpenStreamThenCall` | src/route_handler.rs:724-752 | The opening is queued before anything the callback publishes; without a queue the callback does not run; a failed callback requests the reset. |
| `Client.Client.Send` | src/request_response/chunk_dispatch_channel.rs:35-73 | An item joins the back of its priority queue, or is handed back when the stream has no queue. |
| `Client.Client.RequestStreamReset` | src/request_response/chunk_dispatch_channel.rs:74-80 | The out-of-band mark is set on a stream that has a queue. |
| `Client.Client.InsertNewChannel` | src/request_response/chunk_dispatch_channel.rs:129-147 | A queue is created once; an existing one is kept. |
| `BodyQueue.BodyReqQueue.PushItemOnFront` | src/server_init/quiche_http3_server/fifo_body.rs:74-87 | The item goes before everything waiting for its stream; the stream is listed once. |
| `BodyQueue.BodyReqQueue.PushItem` | src/server_init/quiche_http3_server/fifo_body.rs:52-65 | The item goes behind everything waiting for its stream. |
| `BodyQueue.BodyReqQueue.PopFrontIf` | src/server_init/quiche_http3_server.rs:699-711 | The first waiting item leaves its stream exactly when it is one that is wanted; otherwise nothing changes. |
| `BodyQueue.BodyReqQueue.RemoveStreamQueue` | src/server_init/quiche_http3_server/fifo_body.rs:66-70 | The stream's queue is gone, the others stay. |
| `BodyQueue.BodyReqQueue.IsStreamQueueEmpty` | src/server_init/quiche_http3_server/fifo_body.rs:142-152 | Empty means no queue or no item in it. |
| `BodyQueue.BodyReqQueue.Remove` | src/server_init/quiche_http3_server/fifo_body.rs:121-127 | The stream and its queue are gone, the order of the others is kept, and the walk restarts. |
| `BodyQueue.BodyReqQueue.MaxPendingQueue` | src/server_init/quiche_http3_server/fifo_body.rs:42-48 | A longest queue is returned, nothing exactly when there is none. |
| `BodyQueue.BodyReqQueue.NextStream` | src/server_init/quiche_http3_server/fifo_body.rs:95-110 | One call of the walk. |
| `BodyQueue.BodyReqQueue.Walk` | src/server_init/quiche_http3_server/fifo_body.rs:92-110 | A walk visits every listed stream exactly once, in order, reaches every stream with waiting items, and can be repeated. |
| `BodyQueue.PutBackRestoresOrder` | src/server_init/quiche_http3_server/fifo_body.rs:74-87 | An item put back in front after being taken leaves every FIFO as it was. |
| `Chunker.BodiesArriveWhole` | src/request_response.rs:95-176 | Whatever bodies share the worker and however their queues push back: packets are numbered 0, 1, 2, ..., hold 1 to 8192 bytes, concatenate to a prefix of the body, and to all of it with exactly one end mark, on the last, once the body left without a read error. |
| `Chunker.SubmittedBodyArrivesWhole` | src/request_response.rs:95-176 | The submitted body itself is what the packets of its stream carry, in order and as a prefix, and all of it, ended once, when it has left the channel without a read error. |
| `Chunker.ReadsShorten` | src/request_response.rs:138-170 | A successful read lowers the unread total by exactly what it sent, at least one byte; a full queue leaves it. |
| `Chunker.ReadsDrain` | src/request_response.rs:118-175 | As many unhindered reads as there are unread bytes empty the work channel. |
| `Chunker.TurnsRotate` | src/request_response.rs:119-133 | Every turn brings each waiting body one place closer to the front. |
| `Chunker.TurnIsDeliveryRead` | src/request_response.rs:138-170 | Seen by one stream, a turn of the shared worker is the delivery model's read of that body. |
| `Chunker.Worker.ReceiveOne` | src/request_response.rs:118-176 | One turn of the loop: requeue when occupied, else read, send, advance, and requeue an unfinished body. |
| `Chunker.Worker.Send` | src/request_response.rs:251-300 | A body joins the back of the work channel. |
| `ChunkCounter.SoleProducerBound` | src/request_response/chunk_dispatch_channel.rs:205-282 | At the granularity of atomic operations and in every interleaving with the consumer and with the removal of the queue: with the chunker, which checks the occupancy before each send, as the only producer, queue length <= counter <= limit (150 for the low-priority queue), and the counter never wraps around. |
| `ChunkCounter.QueueBoundedExactly` | src/request_response/chunk_dispatch_channel.rs:213-225 | For any producers, each checking the occupancy first (the chunker) or sending outright (multicast, headers): the queue stays within its limit in all runs exactly when every producer checks, and there is at most one or the limit is zero. |
| `ChunkCounter.CounterBoundedExactly` | src/request_response/chunk_dispatch_channel.rs:264-276 | Some bound on the counter holds in all runs exactly when every producer checks, or there is at most one producer, or the limit is zero. |
| `ChunkCounter.Flood` | src/request_response/chunk_dispatch_channel.rs:213-225 | A producer that does not check makes the queue as long as it likes while the counter stays at its limit. |
| `ChunkCounter.Outgrow` | src/request_response/chunk_dispatch_channel.rs:267-276 | Two producers, one of them not checking, carry the counter past the limit, and from then on past every bound, because the limit test is for equality. |
| `ChunkCounter.UncheckedSenderExample` | src/stream_sessions.rs:346-360 | The failing queue: one application multicasting to one blocked downstream leaves 151 items in a queue of 150. |
| `ChunkCounter.TwoUncheckedExample` | src/request_response/chunk_dispatch_channel.rs:267-276 | The failing counter: two producers that do not check bring the counter of a limit of one to three. |
| `ChunkCounter.ConnectedNeverWraps` | src/request_response/chunk_dispatch_channel.rs:278-286 | While the queue is there no subtraction meets a counter of zero, whoever sends. |
| `ChunkCounter.WrapsExactly` | src/request_response/chunk_dispatch_channel.rs:213-225 | The counter of a removed queue can wrap around, by two failed sends that both take back, exactly when it had two producers and a limit above zero. |
| `ChunkCounter.Grow` | src/request_response/chunk_dispatch_channel.rs:267-276 | Even two producers that both check make the queue longer than any bound while the counter stays below its limit: the check and the addition are not one action. |
| `ChunkCounter.CheckingOvershoot` | src/request_response/chunk_dispatch_channel.rs:264-285 | If every producer checks the occupancy first, the counter exceeds its limit by fewer than their number. |
| `ChunkCounter.CountedQueue.Send` | src/request_response/chunk_dispatch_channel.rs:213-225 | A failed send leaves the counter as it was; below the limit the counter stays exact. |
| `ChunkCounter.CountedQueue.IsOccupied` | src/request_response/chunk_dispatch_channel.rs:264-266 | While the counter is exact, occupied means that the queue itself holds its limit of items. |
| `ChunkCounter.CountedQueue.TryRecv` | src/request_response/chunk_dispatch_channel.rs:240-248 | Items leave in order, each lowering a positive counter by one. |
| `RetryToken.ValidateExactly` | src/server_init/retry_token.rs:73-106 | For all byte strings, Retry IDs, addresses and clocks: validation yields an origin ID exactly when this server minted that very token for it, this Retry ID and this address at some time within the last 30000 ms. |
| `RetryToken.MintExactly` | src/server_init/retry_token.rs:48-71 | Minting succeeds exactly for origin IDs of 8 to 20 bytes, 20-byte Retry IDs and a 64-bit clock; the token is 42 bytes longer than the origin ID and is valid at once. |
| `RetryToken.MintedTokenIsValid` | src/server_init/retry_token.rs:48-106 | Validation of a minted token yields its origin ID exactly inside the time window. |
| `RetryToken.ValidTokenWasMinted` | src/server_init/retry_token.rs:73-106 | An accepted token is the one minted for its contents. |
| `RetryToken.AuthenticationInputInjective` | src/server_init/retry_token.rs:109-128 | Distinct (body, Retry ID, IP address with family, port) never share an authentication input. |
| `RetryToken.AcceptedTokenBindsOneContext` | src/server_init/retry_token.rs:95-104 | A token accepted for two contexts was issued for one origin ID and one context at one time, or the two contexts collide under the MAC. |
| `RetryToken.FromBeToBe` | src/server_init/retry_token.rs:64-64 | Big-endian encoding of a word reads back as the word. |
| `RetryToken.ToBeFromBe` | src/server_init/retry_token.rs:99-99 | Big-endian reading of bytes writes back as the bytes. |
| `RetryToken.BytePlace` | src/server_init/retry_token.rs:64-64 | Byte i of an encoded word is its digit in base 256, the most significant first. |
| `RetryToken.TokenLayout` | src/server_init/retry_token.rs:48-71 | A minted token byte by byte: version 1, eight bytes of issue time, length and bytes of the origin ID, 32 bytes of MAC. |
| `RetryToken.InputLayout` | src/server_init/retry_token.rs:109-128 | The authenticated bytes, field by field: the domain and a zero, family 4 or 6 and octets, the port high byte first, Retry ID, token body. |
| `RetryToken.BuildToken` | src/server_init/retry_token.rs:48-71 | Pushing the fields one after the other builds the minted token, of 50 to 62 bytes. |
| `RetryToken.BuildAuthenticationInput` | src/server_init/retry_token.rs:109-128 | Pushing the fields one after the other builds the authentication input. |
| `Multicast.AnswerTellsWhatWasQueued` | src/stream_sessions.rs:308-365 | While the network loop removes and pops queues at any moment: what entered each surviving queue during the call is exactly its messages among the targets the answer counts as reached, in list order: none when lookup or encoding failed, those of a prefix of the list when sending failed, all on success or when only the wake-up failed. |
| `Multicast.CallAnswersExactly` | src/stream_sessions.rs:311-365 | Exactly when the call succeeds and when it answers each error, in its inputs alone: targets, station, every queue there at its lookup, every message encodable, every queue still there at its send, wake-up. |
| `Multicast.DisconnectedAtFirstUnreachable` | src/stream_sessions.rs:346-360 | A failed send names the first target whose queue was gone; every target before it was reached. |
| `Multicast.SendAllPrefix` | src/stream_sessions.rs:346-360 | The send loop enqueues exactly for a prefix of the list, whatever is popped meanwhile, and stops only at a target whose queue is gone. |
| `Multicast.ResolveEnqueuesNothing` | src/stream_sessions.rs:325-332 | Lookup succeeds exactly when each target's queue is there at its turn, and enqueues nothing. |
| `Multicast.UndisturbedSendReachesAll` | src/stream_sessions.rs:308-365 | With no queue disappearing, pops or not, every listed target gets its message, in list order. |
| `Multicast.StreamSessions.SendOneOrMore` | src/stream_sessions.rs:311-365 | The three loops and every early return, as one state change whose answers `Multicast.CallAnswersExactly` states. |
| `Multicast.StreamSessions.Retry` | src/stream_sessions.rs:95-139 | A prepared capsule is enqueued only if (user, connection, stream) is registered on the path at that moment; otherwise nothing changes. |
| `Multicast.StreamSessions.CleanClosedConnexions` | src/stream_sessions.rs:960-966 | A closed connection leaves the registry of every path; all other registrations stay. |
| `Routes.BuildSucceedsExactly` | src/route_manager.rs:564-583 | A sequence of registrations is accepted exactly when no path and method are registered twice, and then each path files exactly its routes in order. |
| `Routes.LookupIsSearch` | src/route_manager.rs:287-306 | The route found through the index is the one linear search over all registrations finds. |
| `Routes.PathMethodsAreDistinct` | src/route_manager.rs:704-711 | The methods filed under one path are pairwise distinct. |
| `Routes.RouteManagerBuilder.AddNewRoute` | src/route_manager.rs:564-583 | A route is filed, or refused exactly when an equal one (same method, as equality is written) is on its path. |
| `Routes.CollectedIsFound` | src/handler_dispatcher.rs:181-190 | With distinct methods the handlers collected for (path, method) are those of the one route found. |
| `Routes.RouteEventDispatcher.SetHandles` | src/handler_dispatcher.rs:181-190 | For any order in which the map is walked the index holds, per path and method, the collected handlers and nothing else. |
| `Routes.RouteEventDispatcher.DispatchFinished` | src/handler_dispatcher.rs:194-207 | Each handler of the entry is called with the event and status the one before returned; the last status is the response, the initial one without an entry. |
| `Routes.ServeFinished` | src/handler_dispatcher.rs:181-207 | From registration to answer: for any accepted registrations and any walking order, dispatch is the left fold (`Routes.ChainOfOne`, `Routes.ChainSplits`) of the handlers of the route that linear search finds. |
| `Routes.ChainSplits` | src/handler_dispatcher.rs:198-205 | Dispatch through a chain is dispatch through its parts in order. |
| `Routes.ChainOfOne` | src/handler_dispatcher.rs:198-205 | No handler leaves event and status alone; one handler's answer is the chain's; with the splitting law this fixes the fold. |
| `Routes.ChainPasses` | src/handler_dispatcher.rs:198-205 | The chain ends in the last of the (event, status) pairs handed from handler to handler. |
| `Routes.OnPathKeepsOrder` | src/route_manager.rs:564-583 | The registrations of a path keep the order in which they were made. |
| `Headers.ParseRequestHeaders` | src/header_queue_processing.rs:419-454 | The loop answers exactly the order-free definition: one valid method, one valid path, at most one all-digit length that fits the word, with its decimal value. |
| `Headers.AdmittedExactly` | src/header_queue_processing.rs:419-454 | Admission in the list's own terms: exactly one ":method" with GET, POST, PUT or DELETE, exactly one ":path", decodable, not empty and without spaces, control bytes or DEL, and at most one "content-length", all digits, below 2^64. |
| `Headers.AdmittedValues` | src/header_queue_processing.rs:419-454 | What is admitted are the values of those headers, the length as the number its digits spell. |
| `Headers.DecimalPlace` | src/header_queue_processing.rs:449-449 | The first digit counts as often as ten to the power of the digits behind it. |
| `Headers.OrderDoesNotMatter` | src/header_queue_processing.rs:419-454 | Every permutation of the headers is answered alike. |
| `Headers.OtherHeadersDoNotMatter` | src/header_queue_processing.rs:451-451 | Headers of other names never change the answer. |
| `Headers.OneBadHeaderRefusesAll` | src/header_queue_processing.rs:424-449 | A second or invalid method, path or length anywhere refuses the whole list. |
| `Headers.ParseWord` | src/header_queue_processing.rs:449-449 | Digits are read as their decimal value, or refused exactly when it does not fit 64 bits. |
| `WorkerPool.BindingIsStable` | src/file_writer/event_loop.rs:56-80 | Once bound, a stream keeps its worker until released, whatever happens to other streams. |
| `WorkerPool.RunValid` | src/file_writer/event_loop.rs:67-83 | Every stored index names a worker, in every run. |
| `WorkerPool.WorkersStayBalanced` | src/file_writer/event_loop.rs:67-80 | After any number of sequential new associations any two workers differ by at most one stream. |
| `WorkerPool.NewStreamsGoRound` | src/file_writer/event_loop.rs:67-80 | New streams, one after the other, go to the workers in turn: the i-th to the worker i places after the current one, modulo their number. |
| `WorkerPool.FileWriterPool.AssociateStreamWithNextListener` | src/file_writer/event_loop.rs:67-80 | A known stream changes nothing; a new one takes the worker in turn and the turn advances. |
| `WorkerPool.FileWriterPool.RemoveCompletedStreamFromMap` | src/file_writer/event_loop.rs:81-83 | Exactly this stream's binding is removed. |
| `WorkerPool.FileWriterPool.GetWorkerIndexForThisStream` | src/file_writer/event_loop.rs:56-66 | On a valid pool an index found names one of the workers. |

## Left out

- Sockets, polling, TLS, QUIC packets, congestion control and HTTP/3 framing: replaced by the transport contract above.
- AcceptedTokenBindsOneContext: states one context or an exhibited MAC collision, because no function into 32 bytes is injective; HMAC strength, key generation and randomness are not modelled.
- Real files and threads: the storage path names the writer's own file, a locked region is one step, and the buffered writer is always present, so the "no bufwriter" error does not occur.
- Progress percentages, the progress interval, and the flag that records an accepted interim header.
- ServeProgression: the send loop serves body-progression items and the client class models it, but the one call that would queue such an item is commented out, so no run contains one.
- Response builders, error pages, query strings (a path is one opaque key), configuration and start-up.
- Creating the writer of a file route after its stream was bound to a worker always succeeds in the model; the worker binding is released by no caller modelled here.
- The hash map's retention is walked key by key; other orders of visiting within one retention are the same steps in another order.
- EveryAcceptedRequestCanBeAnswered: the handler stage means response preparation with the removed table entry; what a route without a complete entry answers is not modelled.
- A dispatch entry created again for a stream after its reset or its last byte: one entry per stream is modelled.
- An application uses the writer of its event only to register a callback, to flush and to set a length.
- `stream_shutdown` on a reset is modelled as the end of the stream; a transport that refuses it is not.
- Which producers a queue has is an assumption: the low-priority queue of a regular response has the chunker alone, that of a downstream the multicasts; nothing in the code enforces it.
- WrapsExactly: what the occupancy check answers after the counter wrapped around is not followed; additions never reach the machine word's maximum.
- Routes carry no authority in the model, because the builder offers no way to set one.
- UTF-8 decoding, capsule encoding, framing and user registries are parameters.
- WorkersStayBalanced: sequential associations only; the load and the store of the next worker are one step, so two threads associating at once are not modelled.
- Retry: the user registry is an application type; the model takes it to return exactly the registrations of the asked user.
