# Session layer of libKitsunemimiSakuraNetwork: a verified model

The repository is a private session protocol on top of byte streams. This project models its framing, its
fragmentation and reassembly of large payloads, the matching of requests and responses, the handshake and close
protocol between two processes, and the two timed lists behind them, and proves what the parts and their
compositions guarantee. `dafny verify dfyconfig.toml` checks everything.

| file | what it models |
|---|---|
| `Bytes.dfy`, `Wire.dfy` | packed little-endian structs; the ten message kinds and their frames |
| `FrameBuilder.dfy` | building data frames in place in the message cache |
| `Parser.dfy` | `processMessage`: cutting frames out of a growing receive buffer |
| `Fragmentation.dfy`, `Reassembly.dfy` | the send loop of `MultiblockIO` and its inverse |
| `EndToEnd.dfy` | all of the above composed |
| `SwapList.dfy`, `PendingReplies.dfy`, `BlockedCallers.dfy` | the two unordered vectors with swap-with-last removal and their timers |
| `DataProcessing.dfy` | handlers of data packets, with buffers as pointers into a heap, and who owns a buffer |
| `SharedBuffers.dfy` | the same when several sessions of a process share them |
| `RequestSteps.dfy`, `RequestSystem.dfy` | any number of processes and connections exchanging requests and responses, step by step |
| `RequestTraces.dfy`, `RequestFrames.dfy`, `RequestRuns.dfy` | the same over all runs: which call each payload and each caller goes back to, and what that means |
| `AnswerOrigin.dfy` | whose answer a request gets |
| `ByteRuns.dfy` | all of this on byte streams cut into chunks |
| `SessionState.dfy` | one session: state machine, counters, handshake and close handlers, registry |
| `SessionRuns.dfy` | a client and a server process with any number of connections, over all runs |
| `SessionFlow.dfy` | what travels between them, from the call to the handler |
| `SessionReplies.dfy`, `PendingRuns.dfy` | what is answered, and how long the rest stays pending |

The classes (`ReplyHandler`, `MessageBlockerHandler`, `Receiver`, `MultiblockIO`, `DataHandlers`,
`SessionHandler`, `Session`) carry the fields of the source's classes and are updated in place; the contract of
each method equates the new state with a specification function of the old one, and the lemmas are about those
functions. Integer widths are written out: message ids and offsets wrap at 2^32, session ids at 2^16, keys and
timeouts at 2^64. The limit for a single message is a parameter; its default is 128 KiB.

Assumptions the proofs state as preconditions: ids from `getRandId` are not 0 and do not repeat within a process;
the 16-bit session counter and the 32-bit message counter do not wrap during a run; payloads sent in several
parts keep their offsets below 2^32. One handled message, one API call and one timer step are atomic, and the
session callbacks do not send from within the handshake. A frame may be handled even after its session has closed
the socket.

Where code and comments disagree, the model follows the code:

- Frames with the 52-byte single-block header are multiples of 4, not of 8 (src/message_definitions.h:359-373,
  src/handler/session_handler.cpp:69). The delimiter check needs no more than 4.
- The announced part count is one too high when the limit divides the size (src/multiblock_io.cpp:78), as
  `Fragmentation.AnnouncedOneMore` says. Nobody reads it.
- Close messages never fill in their field `sessionId`, so both close handlers call `removeSession(0)`
  (src/messages_processing/session_processing.h:107-144, 216, 233). Closing with `replyExpected` therefore leaves
  the closer registered and its close callback uncalled; `SessionRuns.LoneClose` says exactly when.
- `MessageBlockerHandler::makeTimerStep` removes an entry before it releases it, so a timeout wakes nobody
  (src/handler/message_blocker_handler.cpp:226-227).
- `releaseMessageInList` looks at the blocker id alone, and all sessions of a process share its list
  (src/handler/message_blocker_handler.cpp:125-144). A response can therefore reach a caller of another session;
  `AnswerOrigin.AnswerCrosses` is a run in which it does, `AnswerOrigin.AnswersFromOwnPeer` says when it cannot.
- `serverSessionId * 0x10000` is computed in `int` (src/messages_processing/session_processing.h:161); from
  0x8000 on it exceeds that type. The model takes the value modulo 2^32.

## Model

| member | source | states |
|---|---|---|
| `Wire.SizeBounds` | src/message_definitions.h:108-431 | Every frame of every message kind, for every payload, is a whole number of 32-bit words, holds at least header and footer, and its size fits the 32-bit field. |
| `Wire.FrameLayout` | src/message_definitions.h:108-431 | Whatever the uninitialised bytes hold: header, packed fields, content, trailing fields and footer of a frame lie at their offsets and read back as written. |
| `Wire.DelimiterWord` | src/callbacks.h:140-144 | Word `total / 4 - 1` of every frame is the delimiter, so the check of the receiver passes although frames need not be multiples of 8. |
| `Wire.DecodeEncode` | src/message_definitions.h:108-431 | Round trip for all ten message kinds: what the handlers read out of a frame is the message it was built from, with its ids, flags and payload. |
| `FrameBuilder.SendDataStream` | src/messages_processing/stream_data_processing.h:89-123 | After the three copies the message cache holds exactly the frame of the stream message, on top of the old cache contents as fill bytes; the total is the size of that frame. |
| `FrameBuilder.SendDataSingleBlock` | src/messages_processing/singleblock_data_processing.h:46-87 | The same for a single block; the four padding bytes of the 52-byte header are arbitrary, and the response flag is set exactly for a non-zero blocker id. |
| `FrameBuilder.SendDataMultiStatic` | src/messages_processing/multiblock_data_processing.h:46-91 | The same for one part of a multi-block message. |
| `Parser.Receiver.ProcessMessage` | src/callbacks.h:99-186 | One call: a frame that is incomplete or fails a check takes nothing off the buffer; otherwise exactly the announced number of bytes is taken, the pending entry a reply answers goes, and the message reaches its handler. |
| `Parser.Receiver.Receive` | src/callbacks.h:188-202 | Calling it for an arriving chunk until it returns 0 dispatches the messages, strikes out the pending entries and leaves the bytes that the recursive specification `Drain` says of old buffer plus chunk. |
| `Parser.TakenExactly` | src/callbacks.h:99-186 | A frame is taken if and only if it has the protocol identifier, version 1, one of the six types, a size that has arrived, and the delimiter in its last word; then exactly that size is taken, and a pending message is answered exactly if flag 0x2 is set, the one with the two ids of the header. |
| `Parser.FrameHandled` | src/callbacks.h:99-186 | A complete frame at the front of the buffer is handled as the message it was built from, whatever follows. |
| `Parser.PrefixIncomplete` | src/callbacks.h:106-138 | Any proper prefix of a frame has no effect. |
| `Parser.HandledStable` | src/callbacks.h:99-186 | Bytes arriving later never change how a frame is handled, even a malformed one. |
| `Parser.DrainAppend` | src/callbacks.h:99-186 | Handling two stretches of bytes one after the other equals handling them at once. |
| `Parser.ChunkingIrrelevant` | src/callbacks.h:188-202 | For any bytes whatever, the split into arriving chunks does not change which messages are dispatched, which pending entries are struck out, or which bytes are left. |
| `Parser.StreamReceived` | src/callbacks.h:99-202 | Main result: of any list of frames, cut anywhere, exactly the messages whose frames have completely arrived are handled, in order, and exactly what the replies among them answer is struck out; once all bytes are there, all messages are handled and nothing is left over. |
| `Fragmentation.SendOutgoingData` | src/multiblock_io.cpp:63-117 | The loop ends and sends exactly the parts and the finish of the specification, or the first ones if a send fails or the destructor aborts it; it returns the id exactly if all were taken. |
| `Fragmentation.OffsetsExact` | src/multiblock_io.cpp:97 | The 32-bit product equals the bytes already sent, for every part, if and only if the last offset stays below 2^32. |
| `Fragmentation.DefaultOffsets` | src/multiblock_io.cpp:97 | With the default limit that condition is: size at most 2^32. |
| `Fragmentation.CodeSendsIdeal` | src/multiblock_io.cpp:80-104 | Under that condition the wrapped arithmetic sends what unbounded arithmetic would. |
| `Fragmentation.WrapRepeatsStart` | src/multiblock_io.cpp:97 | Counterexample beyond it: with 2^32 + 1 bytes the last part repeats the first byte. |
| `Fragmentation.AnnouncedExact` | src/multiblock_io.cpp:78 | For every size: the announced part count is the number of parts sent if and only if the limit does not divide the size and the count fits 32 bits. |
| `Fragmentation.AnnouncedOneMore` | src/multiblock_io.cpp:78 | When the limit divides the size, the announced count is the number of parts sent plus one. |
| `Fragmentation.PartsPartition` | src/multiblock_io.cpp:80-117 | ceil(size / limit) parts, numbered from 0, all but the last full, the last not empty, together exactly the data, each with the id, the total size and the announced count of its transfer; then one finish with the blocker id. |
| `Reassembly.Independent` | src/messages_processing/multiblock_data_processing.h:118-165 | What happens under one multiblock id depends on the packets of that id alone, for every interleaving. |
| `Reassembly.PartsAppended` | src/multiblock_io.cpp:183-199 | After k parts the buffer holds the first k * limit bytes of the payload behind whatever it held before. |
| `Reassembly.TransferDelivers` | src/messages_processing/multiblock_data_processing.h:142-165 | A transfer hands over once, and leaves no buffer behind. |
| `Reassembly.FreshIdNeeded` | src/multiblock_io.cpp:127-150 | Because insert does not overwrite: the bytes handed over are the bytes sent if and only if no non-empty buffer was registered under the id. |
| `Reassembly.StartNeeded` | src/messages_processing/multiblock_data_processing.h:118-165 | Without its part 0 a transfer is dropped: however many other parts come, the finish hands over no buffer, and none is left behind. |
| `Reassembly.InterleavedTransfers` | src/messages_processing/multiblock_data_processing.h:118-165 | Main result: for any set of transfers with unused ids and any interleaving of their frames, every payload is handed over exactly once, byte for byte, and the incoming map ends as it began. |
| `EndToEnd.PayloadsArrive` | src/callbacks.h:99-202 | Fragmentation, framing, chunked arrival, parsing and reassembly composed: any payloads, sent by any number of threads among any other messages, arrive once and unchanged, and neither the receive buffer nor the incoming map keeps anything. |
| `DataProcessing.MultiblockIO.CreateIncomingBuffer` | src/multiblock_io.cpp:127-150 | Without memory nothing changes and the result says so; otherwise a new buffer is allocated, and registered only if the id was free. |
| `DataProcessing.MultiblockIO.GetIncomingBuffer` | src/multiblock_io.cpp:159-172 | The registered buffer, or none. |
| `DataProcessing.MultiblockIO.WriteIntoIncomingBuffer` | src/multiblock_io.cpp:183-199 | Appends to the buffer of that id and touches no other; reports whether there was one. |
| `DataProcessing.MultiblockIO.RemoveMultiblockBuffer` | src/multiblock_io.cpp:209-223 | Takes the id out of the map and nothing out of memory. |
| `DataProcessing.DataHandlers.ProcessDataSingleBlock` | src/messages_processing/singleblock_data_processing.h:108-144 | The handler has the effect of `Handle`: buffer filled, then given to the blocked caller of the blocker id or to the request callback. |
| `DataProcessing.DataHandlers.ProcessDataMultiblock` | src/messages_processing/multiblock_data_processing.h:118-137 | The same for a part: created at part 0, then appended to. |
| `DataProcessing.DataHandlers.ProcessDataMultiFinish` | src/messages_processing/multiblock_data_processing.h:142-165 | The same for a finish: handed over, then out of the map. |
| `DataProcessing.DataHandlers.WakeCaller` | src/handler/message_blocker_handler.cpp:73-78 | A woken caller leaves the list with what its own entry holds. |
| `DataProcessing.HandleRefines` | src/messages_processing/multiblock_data_processing.h:118-165 | Writing through buffer pointers refines the per-id byte sequences, never changes a buffer that was handed over, and hands over exactly the bytes the value-level model hands over, to the one consumer meant. |
| `DataProcessing.HandleOwned` | src/messages_processing/multiblock_data_processing.h:118-165 | Every packet keeps: each buffer is in at most one place (incoming map, one blocked entry, one callback, one returned request). |
| `SharedBuffers.HandleKept` | src/messages_processing/multiblock_data_processing.h:118-165 | Whatever a session or its process holds after a packet was held before or has been allocated by it. |
| `SharedBuffers.BystanderOwned` | src/multiblock_io.cpp:39-51 | A step of one session keeps every buffer of the other sessions of its process in one place, and none in common with them. |
| `DataProcessing.BlockOwned` | src/handler/message_blocker_handler.cpp:53-67 | Blocking a caller under an unused id keeps it. |
| `DataProcessing.WokenOwned` | src/handler/message_blocker_handler.cpp:73-78 | Waking a caller keeps it: the buffer moves from the entry to the caller. |
| `DataProcessing.StepOwned` | src/handler/message_blocker_handler.cpp:214-237 | A timer step keeps it. |
| `SwapList.AddRefines` | src/handler/reply_handler.cpp:80-93 | Appending an entry with a new key is insertion into the finite map the list stands for. |
| `SwapList.SwapOutRefines` | src/handler/reply_handler.cpp:169-174 | Swapping the last entry into the gap and popping is removal of exactly one key. |
| `SwapList.RemoveRefines` | src/handler/reply_handler.cpp:159-186 | Removal by key: from the map, of nothing else, with the length dropping by one exactly if the key was there. |
| `SwapList.UpdateRefines` | src/handler/message_blocker_handler.cpp:134-139 | Changing one entry in place is an update of one key. |
| `PendingReplies.KeyInjective` | src/handler/reply_handler.cpp:64-71 | The packed 64-bit key determines both ids; its low half is the session id. |
| `PendingReplies.ReplyHandler.AddMessage` | src/handler/reply_handler.cpp:64-93 | The entry is appended under the packed key with timer 0. |
| `PendingReplies.ReplyHandler.RemoveMessage` | src/handler/reply_handler.cpp:103-186 | The scan, swap and pop equal removal by key; the result says whether the key was there. |
| `PendingReplies.ReplyHandler.RemoveAllOfSession` | src/handler/reply_handler.cpp:134-150 | The loop marks exactly the entries of that session. |
| `PendingReplies.MarkRefines` | src/handler/reply_handler.cpp:134-150 | Marking keeps all keys and changes the ignore flag of exactly the entries of the session. |
| `PendingReplies.ReplyHandler.MakeTimerStep` | src/handler/reply_handler.cpp:218-255 | The loop with its early break equals the recursive step. |
| `PendingReplies.StepShape` | src/handler/reply_handler.cpp:218-255 | Closed form of a step: all entries tick; or those up to the first due one tick, that one is swapped out, and the rest waits. |
| `PendingReplies.StepKeeps` | src/handler/reply_handler.cpp:218-255 | Keys stay distinct, stored timers stay below the timeout, and at most one entry leaves, the first due one. |
| `PendingReplies.StepProgress` | src/handler/reply_handler.cpp:218-255 | No entry moves to a higher index, and each step ticks the entry, removes it, or removes one ahead of it. |
| `PendingReplies.DrainBound` | src/handler/reply_handler.cpp:218-255 | Over any run without additions, with answers and marks between the timer steps, the list is empty after as many steps as it has entries, plus one unless all are already due. |
| `PendingReplies.DrainWithin` | src/handler/reply_handler.cpp:218-255 | In every such run n entries are gone after at most n + 1 steps. |
| `PendingReplies.StayBound` | src/handler/reply_handler.cpp:159-255 | Over any run with additions, an unanswered entry leaves no earlier than the step that brings its timer to the timeout, and no later than r steps after that, where r counts the other entries that ran out meanwhile. |
| `PendingReplies.NewStay` | src/handler/reply_handler.cpp:64-255 | In timer steps: an unanswered message that was just added is still in the list after one step and gone after 2 + r. |
| `PendingReplies.ListIsMap` | src/handler/reply_handler.cpp:64-186 | Under every sequence of add, remove and mark calls with fresh keys the unordered vector is the finite map from keys to entries. |
| `BlockedCallers.MessageBlockerHandler.QueueCaller` | src/handler/message_blocker_handler.cpp:53-67 | The caller is appended with its timeout and without data. |
| `BlockedCallers.MessageBlockerHandler.ReleaseMessage` | src/handler/message_blocker_handler.cpp:89-144 | Sets the data of the first entry with that id and reports whether there is one. |
| `BlockedCallers.MessageBlockerHandler.RemoveMessage` | src/handler/message_blocker_handler.cpp:151-184 | Equals removal by id and returns the data of the entry removed. |
| `BlockedCallers.MessageBlockerHandler.MakeTimerStep` | src/handler/message_blocker_handler.cpp:214-237 | The countdown loop, which skips the entry swapped into a gap, equals the recursive step. |
| `BlockedCallers.ReleaseRefines` | src/handler/message_blocker_handler.cpp:125-144 | A release changes the data of exactly the caller blocked under that id. |
| `BlockedCallers.ListIsMap` | src/handler/message_blocker_handler.cpp:53-184 | Under every sequence of block, release and remove calls with fresh ids the vector is the finite map from blocker ids to entries. |
| `BlockedCallers.TimeoutWakesNobody` | src/handler/message_blocker_handler.cpp:226-227 | The release after a timeout finds nobody, because the entry is already out of the list. |
| `BlockedCallers.StepOutcome` | src/handler/message_blocker_handler.cpp:214-237 | To each entry a step does exactly one thing: count down, take out at zero, or leave as it is, and the last only if another entry ran out. |
| `BlockedCallers.TimeoutBound` | src/handler/message_blocker_handler.cpp:214-237 | Over any run: an entry with timeout T is taken out no earlier than the T-th step and no later than step T + r, where r counts the other entries that ran out meanwhile; a timeout of 0 wraps around and counts as 2^64. |
| `RequestSteps.ActorKeeps` | src/session.cpp:124-236 | Every step of a session (send, emit one frame, give up, block, wake, handle a frame, timer) keeps what holds between it, the session at the other end and the blocked callers of its process. |
| `RequestSystem.StepKeepsInv` | src/session.cpp:124-236 | Every step of every session keeps the invariant of any number of processes with any number of connections, whose sessions share the buffers and the blocked callers of their process. |
| `RequestTraces.SentIsPassed` | src/session.cpp:124-236 | In every run the payloads a session has sent are exactly those passed to its calls: same id, same bytes, for the same blocker id, or none for requests and normal messages. |
| `RequestTraces.CallersAsked` | src/session.cpp:165-196 | In every run whoever is about to block, waits or has returned did call sendRequest under its id, no frame of its request was refused by the socket, and the timeout it is about to block with is the one it passed. |
| `RequestFrames.SendSplits` | src/session.cpp:124-236 | A call with a new id takes effect at once: up to the limit (for responses: below it) one single block with exactly its bytes is queued, otherwise parts of at most the limit that join to exactly its bytes, and a finish. |
| `RequestFrames.FramesShort` | src/multiblock_io.cpp:84-90 | In every run no frame that is queued or under way holds more than the limit. |
| `RequestRuns.CallerBlocks` | src/handler/message_blocker_handler.cpp:53-67 | In every run blocking adds one entry to the list of the process, under the id of the call and with the timeout passed to sendRequest, and changes no other. |
| `RequestRuns.AnswersNeverMixed` | src/session.cpp:165-236 | Main result: in every run sendRequest returns nothing, or exactly the bytes that some earlier call of sendResponse for its id passed, made by the peer of some session of its process; and the buffer keeps them. |
| `AnswerOrigin.AnswersFromOwnPeer` | src/handler/message_blocker_handler.cpp:125-144 | Main result: if sendResponse is only called for ids the request callback of the same session was given, that call was made by the peer of the connection the request went out on. |
| `AnswerOrigin.OwnPeerExactly` | src/handler/message_blocker_handler.cpp:125-144 | That condition tells the sessions apart: of all that could answer, a session was given the request if and only if it is the peer of the caller. |
| `AnswerOrigin.AnswerCrosses` | src/handler/message_blocker_handler.cpp:125-144 | Counterexample without it: the peer of another session answers the id, and the caller returns with its bytes although its own peer has not even heard the request, because releasing looks at the id alone. |
| `RequestRuns.AnswerReturned` | src/session.cpp:165-236 | When the last frame of a response is handled, by whichever session of the process, while a caller still waits under its id, that caller does return, with exactly the bytes the other end passed to sendResponse. |
| `RequestRuns.RequestsDelivered` | src/session.cpp:124-236 | Every payload that reaches the request callback of a session was passed, byte for byte, to a call of its peer under that id: a request, a normal message, or a response for blocker id 0; at most once per id. |
| `RequestRuns.OneOwner` | src/multiblock_io.cpp:39-51 | In every reachable state no two places of a process hold the same buffer, neither of one session nor of two, so deleting what is left in the incoming map of a session frees nothing that anyone else holds. |
| `ByteRuns.WireRunSimulated` | src/callbacks.h:99-202 | Every run on byte streams, cut into chunks anywhere and mixed with any other messages, does what some run of RequestRuns with exactly the same calls does. |
| `ByteRuns.AnswersOnTheWire` | src/session.cpp:165-236 | Main result: the guarantees for the answers of sendRequest hold on byte streams, with the call of sendResponse that passed the bytes among the calls of that run. |
| `SessionState.SessionHandler.AddSession` | src/handler/session_handler.cpp:118-128 | Registers the session under the id unless the id is taken. |
| `SessionState.SessionHandler.RemoveSession` | src/handler/session_handler.cpp:135-154 | Takes the id out and returns what it led to. |
| `SessionState.SessionHandler.IncreaseSessionIdCounter` | src/handler/session_handler.cpp:161-176 | Increments modulo 2^16 and returns the new value. |
| `SessionState.Session.GoToNextState` | src/session.cpp:528-549 | Moves exactly along the four transitions of the state machine. |
| `SessionState.Transitions` | src/session.cpp:528-549 | The transitions are exactly five: connect, start and stop of the session, and disconnect from either child state of CONNECTED. |
| `SessionState.Session.IncreaseMessageIdCounter` | src/session.cpp:556-567 | Increments modulo 2^32 and returns the new value. |
| `SessionState.Session.Send` | src/session.cpp:485-504 | A message with flag 0x1 becomes pending even when the closed socket then refuses it; nothing else becomes pending. |
| `SessionState.Session.ConnectiSession` | src/session.cpp:346-382 | Connects and takes over the id only from NOT_CONNECTED and if the socket connects; otherwise marks the init as failed and keeps the id. |
| `SessionState.Session.MakeSessionReady` | src/session.cpp:393-418 | Becomes ready, with final id, identifier and create callback, only from SESSION_NOT_READY. |
| `SessionState.Session.EndSession` | src/session.cpp:428-442 | From SESSION_READY: close callback, out of the registry, disconnected; from any other state nothing. |
| `SessionState.Session.DisconnectSession` | src/session.cpp:450-473 | From any connected state to NOT_CONNECTED with the socket closed, if it can be; no callback, no change of the registry; the result says whether both worked. |
| `SessionState.Session.CloseSession` | src/session.cpp:277-298 | Only from SESSION_READY: silences the pending entries of the session, sends the close message, and ends the session only if no reply is expected; the result says whether that worked. |
| `SessionState.Session.SendHeartbeat` | src/session.cpp:511-523 | Sends a heartbeat exactly if ready. |
| `SessionState.Session.SendStreamData` | src/session.cpp:96-113 | Sends exactly if the payload is within the limit and the session is ready. |
| `SessionState.Session.Start` | src/session_controller.cpp:336-379 | Refuses long identifiers; otherwise new id, connected, registered, init message sent, in that order; if connecting fails only the id is used up. |
| `SessionState.Session.ProcessSessionInitStart` | src/messages_processing/session_processing.h:152-176 | The server half of the handshake: new server id, composed id, registered, ready, answered under the id of the client. |
| `SessionState.Session.ProcessSessionInitReply` | src/messages_processing/session_processing.h:184-199 | The client half: temporary id out, composed id in, ready. |
| `SessionState.Session.ProcessSessionCloseStart` | src/messages_processing/session_processing.h:207-218 | Answered first, then ended if ready. |
| `SessionState.Session.ProcessSessionCloseReply` | src/messages_processing/session_processing.h:226-235 | Disconnected without close callback and without leaving the registry. |
| `SessionState.Session.ProcessDataStream` | src/messages_processing/stream_data_processing.h:145-163 | The stream callback is called with the payload; then a reply goes out exactly if one is wanted. |
| `SessionState.Session.ProcessMessage` | src/callbacks.h:154-183 | The dispatch of session, heartbeat and data messages with their replies, after the entry a reply answers is struck out. |
| `SessionState.StruckOnce` | src/callbacks.h:154-157 | What handling a message strikes out of the pending list is what the parser strikes out for the frame of that message. |
| `SessionState.Lifecycle` | src/session.cpp:393-473 | Over every sequence of calls: create callbacks = close callbacks + disconnects straight from ready + 1 if ready now. |
| `SessionState.EntersReady` | src/session.cpp:393-418 | A session that is not ready becomes ready by a call if and only if the call is makeSessionReady or a handshake message in SESSION_NOT_READY, or the init message, which connects it first. |
| `SessionState.InitOutcome` | src/session.cpp:346-418 | Every call sets the init state to 1 exactly if it makes the session ready, which is when the create callback is called, to -1 exactly if it is refused, and leaves it alone otherwise. |
| `SessionState.FailedStart` | src/session.cpp:358-364 | A start whose connection fails leaves the session unconnected, unregistered and with init state -1, and sends nothing; the next start takes the next id. |
| `SessionState.RefusedStillPends` | src/session.cpp:485-504 | Every message with flag 0x1 adds exactly one entry, with its own key and timer 0, whether or not the socket takes the frame; no other message does. |
| `SessionState.CompleteIdInjective` | src/messages_processing/session_processing.h:159-161 | The composed id determines both halves and, for a non-zero server half, is no temporary client id. |
| `SessionRuns.StepKeepsInv` | src/session.cpp:277-567 | Every step of the two-process system, on any connection, keeps the invariant of sessions, channels, registries and pending lists. |
| `SessionRuns.Agreement` | src/messages_processing/session_processing.h:152-199 | Main result: a ready client has a server session that became ready with the same id and the identifier given to startSession; the id is clientId + serverId * 0x10000; each ready side is registered under it. |
| `SessionRuns.HandshakeCompletes` | src/session_controller.cpp:336-357 | From every reachable state the handshake goes through: after startSession and two handled frames both sides are ready and registered under the composed id, and the init state is 1, which ends the wait. |
| `SessionRuns.NothingBeforeReady` | src/messages_processing/session_processing.h:152-199 | The next frame for a session is an init message if and only if the session has not become ready yet: no heartbeat and no data is ever handled before that. |
| `SessionRuns.IdsDistinct` | src/handler/session_handler.cpp:118-176 | Composed ids of different connections differ, already in their server half, and none is a temporary id. |
| `SessionRuns.RegistryCoherent` | src/handler/session_handler.cpp:118-154 | In every reachable state each registry key is the id stored in the session it leads to, and a session is registered if and only if it is connected or was disconnected by a close reply. |
| `SessionRuns.ReplyConservation` | src/handler/reply_handler.cpp:64-186 | Main result: in every run the keys of the pending list are those of the messages sent with flag 0x1, less the answered, less the timed out, each once. |
| `SessionRuns.ReplyStrikesItsOwn` | src/callbacks.h:154-157 | An arriving reply answers one message of its own session, the only one of the process with that key, and strikes out that entry and no other. |
| `SessionRuns.CloseConverges` | src/session.cpp:428-473 | Main result: once a side is down and no close message is under way, both are down; each has called its close callback once and left the registry, except a side that asked for a reply and was dropped by it. |
| `SessionRuns.LoneClose` | src/messages_processing/session_processing.h:207-235 | Closing a quiet connection from either side: the peer always ends properly; the closer calls its close callback and leaves the registry if and only if it did not ask for a reply. |
| `SessionReplies.WantsReplyExactly` | src/message_definitions.h:148-431 | Flag 0x1, which makes a message pending, is set on exactly the messages that some reply answers, except a close message that does not ask for one. Parts and finishes never carry it. |
| `SessionReplies.IsReplyExactly` | src/message_definitions.h:148-431 | Flag 0x2 is set on exactly the messages that answer one. |
| `SessionReplies.AnswerSent` | src/callbacks.h:154-183 | With an open socket, handling a message that can be answered sends exactly one frame, its answer; handling any other message sends nothing. |
| `SessionReplies.ReplyRound` | src/messages_processing/singleblock_data_processing.h:108-144 | Heartbeats, streams with reply and single blocks, from either side: sent, they become pending; the peer answers; once the answer is handled the same keys are pending as before, on both sides. |
| `SessionReplies.PendingAnswerable` | src/session.cpp:485-504 | In every run each pending key is that of a message its process sent and that the session at the other end, once ready, answers when it handles it. |
| `PendingRuns.StepEvents` | src/handler/reply_handler.cpp:64-255 | Every step of the two-process system does to the pending list of a process exactly what the call, the reply or the timer step says: add, remove, silence, tick, or nothing. |
| `PendingRuns.RunEvents` | src/handler/reply_handler.cpp:64-255 | So over every run the list is what these events make of it, and the results of `PendingReplies` apply to it. |
| `PendingRuns.CloseSilences` | src/session.cpp:277-298 | Closing sets the ignore flag of exactly the pending entries of its own session, and keeps all keys. |
| `PendingRuns.UnansweredStay` | src/handler/reply_handler.cpp:218-255 | Main result: over every run, whatever else is sent, answered, silenced or timed out on any connection, a message nobody answers is still pending after one timer step and gone after 2 + r, where r counts the other entries that ran out meanwhile. |
| `SessionFlow.StepFlow` | src/session.cpp:96-298 | In every step each channel behaves as a queue of what was passed in: the arguments of a call that finds the session ready and the limit kept join at the end, the message handled leaves at the front, replies aside. |
| `SessionFlow.FlowConserved` | src/session.cpp:96-298 | Over every run: what a session has handled followed by what is under way to it is exactly what was under way followed by what its peer was passed, in order. |
| `SessionFlow.StreamsArrive` | src/messages_processing/stream_data_processing.h:145-163 | Main result: in every run the stream callback has been called with exactly the payloads passed to sendStreamData on the other side, each once, in order, byte for byte, up to those still under way. |
| `SessionFlow.DataFifo` | src/session.cpp:124-236 | In every step the data packets under way to a session behave as an inbox of RequestRuns: sent ones join at the end while the socket is open, handled ones leave at the front, other messages do not matter. |

## Left out

- Sockets, TLS, servers and the receive loop of the socket: each direction is a FIFO of bytes or of frames. A
  socket refuses frames once its session has closed it; other send failures appear as `accepted` in the send loop
  and as the action `Fail`.
- The ring buffer is a byte sequence without a capacity limit, `DataBuffer` an append-only byte sequence whose
  allocation succeeds; the sources of both, of the state machine class and of the thread class are not part of
  this model. `DISCONNECT` is taken to apply in both child states of CONNECTED.
- Locks, condition variables and memory order. Dangling pointers after a swap are not represented.
- Error messages (type 3) and what a malformed frame triggers beyond taking no bytes.
- The destructors apart from their `m_abort`, what `startSession` does after its wait, and server creation.
- The overload of `send_Data_Stream` that takes a `DataBuffer`, which nothing calls.
- The sweep `sendHeartBeats` (src/handler/session_handler.cpp:221-235) appears in runs as one heartbeat step per
  session, in any order.
- The application callbacks only count or record that they were called, and with what.
- RequestSystem.StepKeepsInv: its connections are there from the start, a later one being one that was idle, and its
  sessions may send at any time; `SessionRuns` is about when they may, and `SessionFlow.DataFifo` joins the two.
- RequestRuns.AnswerReturned: says nothing about a response that arrives before its caller has blocked, or after
  the timeout; the source loses both.
- Parser.Receiver.ProcessMessage: in the failing checks it states what is taken and dispatched, not the error
  reports, the `closeSession` call on a wrong protocol, or the `assert(false)` on a wrong delimiter. A total size
  below 4 is refused, where the source would read outside the frame.
- Parser.StreamReceived: is about frames the send functions build; for other bytes only
  `Parser.ChunkingIrrelevant` and `Parser.HandledStable` apply. There a frame with flags or a size no sender gives
  its type leaves the buffer, but reaches no handler in the model.
- PendingReplies.ReplyHandler.MakeTimerStep: does not model which session a timeout is reported to, because the
  source reads through the slot after another entry was swapped into it (src/handler/reply_handler.cpp:231-246),
  nor the `m_initState` it writes there. Timers are reals; the source adds 1.0f.
- BlockedCallers.MessageBlockerHandler.MakeTimerStep: does not model the error callback of an expired entry nor
  the session pointer it goes through.
- BlockedCallers.MessageBlockerHandler.QueueCaller: is the first half of `blockMessage`; the wait in between is
  the time until the action `Wake`.
- DataProcessing.DataHandlers.ProcessDataMultiblock: takes the buffer at part 0 to be allocated; the runs know no
  failed allocation.
- DataProcessing.DataHandlers.ProcessDataSingleBlock: the reply it sends is part of
  `SessionState.Session.ProcessMessage`, not of its contract.
- SessionState.Session.CloseSession: its call `removeMultiblockBuffer(0)` is left out; no transfer has id 0.
- SessionState.Session.Start: ends where the source begins to wait for `m_initState`.
- SessionState.Session.EndSession: takes closing the socket to succeed, as the runs do; they take connecting it to
  succeed as well.
- SessionRuns.Agreement: counter wrap-around is excluded by `Enabled`.
