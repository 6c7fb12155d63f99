# A verified model of the ngtcp2 extension's transport engine

The extension puts a Sans-I/O QUIC transport between a PHP application and ngtcp2. This
project models the part that carries the state: stream entries and their buffers, the loop
that drains outgoing datagrams, the prediction of stream IDs while the peer's limit blocks
opens, the closing and draining flags with their events, the event queue with its
reference-counted strings, the endpoint that routes datagrams to connections, the timer
arithmetic, and the parser of endpoint strings.

## How it is built

| file | content |
|---|---|
| `Common.dfy` | bytes, options, the C view of a PHP string |
| `Library.dfy` | the contract of ngtcp2: a nondeterministic environment, never its code |
| `Buffer.dfy` | `src/buffer.c` on arrays, with the in-place shift |
| `StreamSpec.dfy` | one stream entry: what every operation does to it, and its invariant |
| `ConnectionSpec.dfy` | a connection as a state machine: steps, the library's contract per step, runs |
| `ConnectionProofs.dfy` | the invariant of every reachable state |
| `StreamIdProofs.dfy` | what holds of the ID counters in every run without a mismatch |
| `SendTheorems.dfy`, `ReceiveTheorems.dfy`, `LifecycleTheorems.dfy`, `StreamIdTheorems.dfy` | the results about whole runs |
| `HistoryTheorems.dfy` | every flag of streams and connections as a function of the past; which writes are accepted; which stream is picked |
| `EventTheorems.dfy` | exactly when each kind of event is raised, and what it says |
| `DrainTheorems.dfy` | exactly which iterations make up a drain, and which packets it returns |
| `Connection.dfy` | the objects of `src/connection.c`, `src/stream.c` and `src/callbacks.c`, updated in place |
| `EventQueue.dfy` | `src/queue.c`: the linked list and the reference counts |
| `ServerEndpoint.dfy` | `src/server_endpoint.c`: the registry and its operations over all connections |
| `Deadlines.dfy`, `Address.dfy` | timer arithmetic; endpoint strings and the peer key |

**Runs.** A run is any sequence of steps: calls by the application, callbacks by the library,
iterations of the drain loop, changes of the library's closing and draining periods. It is
valid if the library keeps its contract in every step, and no step is out of its place in the
code: a due close packet comes before the drain loop, and a closed connection has no timers
(`ConnectionSpec.Enabled`). Results
about runs hold for every valid run from the initial state.

**Objects.** Each method of `Connection.Connection` is proved to extend the object's run (the
ghost field `trace`) by exactly the steps it stands for, and `Valid()` says that the fields are
in the state that this run reaches. So every result about runs is a result about the objects.
Small helper methods are stated on the abstract state (`View()`). Bytes are appended and read
through the array code of `Buffer.dfy`; that the linked list of `EventQueue.dfy` stores the
connection's queue is what `EventQueue.PushEvent` and `EventQueue.DrainEvents` keep.

**Exceptions under the endpoint.** After an exception in one connection the remaining
connections make no step. Whether the PHP runtime then lets the endpoint's call go on to its
cleanup is left open: the results hold either way.

**The library's contract** (`Library.dfy`). A write takes at most the bytes offered. An answer
"write more" takes at least one byte if bytes were offered. A FIN is recorded exactly if it
was offered and all offered bytes were taken. A stream with a recorded FIN, or whose write side
was shut before, takes nothing more and can only be answered with SHUT_WR, a closing error or
a failure. A write without a stream is never answered with "write more" or SHUT_WR. Opens
hand out consecutive IDs of their type. The errors CLOSING and DRAINING are reported only in
the respective period. A stream-open callback announces a new stream of the peer; the other stream
callbacks name a stream of the peer or one the library has opened. After writing a
CONNECTION_CLOSE packet the library is in its closing period; the packet carries the error it
was asked to write. Behind an object stands one arbitrary library: the constant `library` says
what it does at each moment; an answer against the contract counts as a failure, and a callback
against it is not made (`ConnectionSpec.OpenOf`, `WriteOf`, `CloseOf`, `ReadOf`, `CallsOf`). `Valid()` includes that
every answer in the object's run is the one that this library gave at that moment, so a method
cannot leave the library unasked or make up its answers. Likewise the endpoint's `Recv` is told
whether a new connection can be set up, and with which library.

## Where a property fails, and when it holds

| property | fails because | exact condition |
|---|---|---|
| a FIN marked as sent has been recorded | an empty FIN write may produce a packet and report wdatalen -1 (`SendTheorems.BlindFinCounterexample`) | `SendTheorems.FinMarkExact` |
| a waiting sender has something that ends the wait | `write("")` with nothing unsent (`SendTheorems.EmptyWriteCounterexample`) | `SendTheorems.StuckIff` |
| a stream that calls itself writable accepts a write | an acknowledgement while the FIN is pending (`SendTheorems.AckDuringFinCounterexample`) | `SendTheorems.WritableAcceptsUnlessFinPending` |
| a direct open returns a new ID | a stream whose open was blocked has it already, be it still pending (`StreamIdTheorems.ReuseCounterexample`) or reset (`StreamIdTheorems.ResetReuseCounterexample`) | `StreamIdTheorems.ReuseIff` |
| the library opens the predicted ID | data was given to a later pending stream first (`StreamIdTheorems.MismatchCounterexample`), or the first one was reset (`StreamIdTheorems.ResetMismatchCounterexample`) | `StreamIdTheorems.MismatchIff` |
| an error treated as closing leaves the connection closed | an idle timeout does not put ngtcp2 into a period (`LifecycleTheorems.IdleCloseCounterexample`) | `LifecycleTheorems.StoppedMeansClosedIff`, `LifecycleTheorems.StoppedReadMeansClosedIff` |
| a stream turns readable only with a StreamReadable event | a read that leaves bytes on a stream which was reset locally makes it readable again (`EventTheorems.SilentRiseCounterexample`) | `EventTheorems.SilentRiseIff` |
| the close packet carries the application's code and reason | with code 0 a packet that cannot be read replaces them (`LifecycleTheorems.CloseErrorCounterexample`) | `LifecycleTheorems.CloseErrorIff` |
| the endpoint's drainEvents returns every event queued | a connection closed by the peer is removed in the same recv that queues its last events (`ServerEndpoint.PeerCloseCounterexample`) | `ServerEndpoint.ServerEndpoint.NextDrainIff` |
| the peer key identifies the peer | hosts that differ only behind a NUL get the same key (`Address.SharedKeyCounterexample`) | `Address.KeysEqualIff` |
| the printed endpoint string is read back | a colon, a NUL or an opening bracket in front (`Address.BareBracketCounterexample`) in a bare host, a closing bracket or a NUL in a bracketed one, an empty host | `Address.BareRoundTrip`, `Address.BracketedRoundTrip` |

The documentation calls a null timeout "no next timer expiry" (README.md:91-94); the code
returns null only for closed connections, and the model follows the code. Events of a
connection that the endpoint has removed stay in the connection's own queue
(`LifecycleTheorems.UndrainedEventsStay`).

## Model

| member | source | states |
|---|---|---|
| `SendTheorems.SendBytesConserved` | src/connection.c:257-327 | in every run, bytes taken by the library followed by the unsent ones are the bytes written; after a SHUT_WR discard the taken bytes are still a prefix; the offset is always in normal form, so the clamps never act |
| `SendTheorems.WrittenIsAllWrites` | src/stream.c:141-142 | the bytes written are the concatenation of the data of all accepted write and end calls, in order |
| `SendTheorems.OffersNextBytes` | src/connection.c:1094-1103 | in every run, an iteration that offers a stream offers exactly the written bytes that the library has not taken yet, all of them, and its FIN if one is pending |
| `StreamSpec.UpdateTxConsumes` | src/connection.c:289-327 | update_tx_entry drops exactly the reported prefix, settles a pending FIN exactly if a packet went out with nothing left, never leaves an idle open entry unwritable, and touches nothing of the receiving side |
| `StreamSpec.AcceptedPlusUnsent` | src/connection.c:1099-1103 | what the library takes of an offer and what stays unsent are the offer |
| `StreamSpec.OfferKeepsConservation` | src/connection.c:1105-1138 | every kind of answer keeps conservation of bytes |
| `StreamSpec.OfferKeepsInv` | src/connection.c:1105-1138 | every kind of answer keeps the whole stream invariant |
| `StreamSpec.WriteKeepsInv` | src/stream.c:136-143 | write keeps the stream invariant |
| `StreamSpec.EndKeepsInv` | src/stream.c:170-174 | end keeps it, also when called again after the FIN |
| `StreamSpec.ResetKeepsInv` | src/stream.c:211-216 | a local reset keeps it |
| `StreamSpec.AckedKeepsInv` | src/callbacks.c:149-158 | an acknowledgement keeps it |
| `StreamSpec.PeerEndKeepsInv` | src/callbacks.c:100-136 | close and reset by the peer keep it |
| `StreamSpec.ReceiveKeepsInv` | src/callbacks.c:81-95 | received data keeps it: buffered bytes are announced |
| `StreamSpec.ReadKeepsInv` | src/stream.c:103-110 | reading keeps it |
| `SendTheorems.FinMarkExact` | src/connection.c:309-313 | whenever update_tx_entry marks the FIN as sent, for the first time or again, every written byte has been taken, and the FIN has been recorded at that size exactly unless the offer was empty and wdatalen negative |
| `SendTheorems.FinalSizeFixed` | src/connection.c:1106-1125 | after the library has recorded a FIN (or shut the side) its bytes and the final size never change, in any continuation (section 4.5 of RFC 9000) |
| `SendTheorems.FinSentFreezes` | src/stream.c:170-174 | once a FIN is marked as sent, not blindly, no later call makes the library take a byte; the recorded size is that of the taken bytes |
| `SendTheorems.BlindFinCounterexample` | src/connection.c:309-313 | a run in which a blindly marked FIN is followed by one more accepted byte |
| `SendTheorems.EndsAreForever` | src/stream.c:136-139 | a pending or sent FIN or a close is never undone, so write refuses for ever; a closed stream is never picked again, so nothing of it is offered and the library's view of it is fixed |
| `HistoryTheorems.WriteAcceptedIff` | src/stream.c:124-143 | after any run a write is accepted exactly if some open or callback was about the stream, this side may send on it, and no end(), reset, close by the peer or SHUT_WR came before; its bytes are then the last unsent ones |
| `HistoryTheorems.EndLeavesFin` | src/stream.c:170-174 | an accepted end() leaves a pending FIN after all unsent bytes; in every continuation the FIN is pending, sent, or the stream closed, and writes are refused |
| `HistoryTheorems.FlagHistory` | src/connection.c:289-342 | in every run each of the eight flags of a stream is set exactly if a step has set it and no later one has cleared it, with the calls, callbacks and answers that do so |
| `HistoryTheorems.FactHistory` | src/connection.c:217-243 | in every run a stream is in the table, its sending over, the handshake completed, the connection draining, closed, closed by close(), its packet settled, an error kept, exactly if a step of the right kind has happened |
| `SendTheorems.ResetMeansClosed` | src/callbacks.c:119-136 | in every run a stream reset by either side is closed, and so never picked |
| `SendTheorems.ReceiveOnlyNeverPicked` | src/stream.c:37-44 | in no run is a remote unidirectional stream picked, nor a byte of it taken (section 2.1 of RFC 9000) |
| `SendTheorems.NoStuckSender` | src/connection.c:321-326 | in every run a send-capable stream that is not writable has unsent bytes or a FIN, or has ended, unless an empty write came with nothing unsent |
| `SendTheorems.EmptyWriteSticks` | src/stream.c:141-142 | a write leaves a stream stuck exactly if it has no data and nothing is unsent |
| `SendTheorems.StuckIff` | src/stream.c:136-143 | after any run, the next step makes a send-capable stream stuck exactly if it is a permitted write with no data and nothing unsent |
| `SendTheorems.EmptyWriteCounterexample` | src/stream.c:141-142 | a run that ends stuck, with nothing for the drain loop to pick |
| `SendTheorems.WritableAcceptsUnlessFinPending` | src/callbacks.c:149-158 | with fresh IDs a writable stream is not closed, reset or finished, and accepts a write exactly if no FIN is pending |
| `SendTheorems.AckDuringFinCounterexample` | src/callbacks.c:150-155 | a run in which a writable stream refuses a write |
| `SendTheorems.OfferLightens` | src/connection.c:1105-1138 | no answer adds work to a stream; "write more" and SHUT_WR take some away |
| `SendTheorems.RoundMakesProgress` | src/connection.c:1046-1168 | whenever the loop goes on without a packet there is less work, or a round without stream follows one with a stream |
| `SendTheorems.LoopIsShort` | src/connection.c:1046-1168 | every drain loop over a reachable state, whatever the library answers, makes at most twice as many iterations as packets and work together, plus two, and at most 256 packets |
| `DrainTheorems.DrainIff` | src/connection.c:1000-1171 | a drain is exactly one close-write, or the iterations that the answers ask for: another pick after a packet, "write more" and SHUT_WR, one try without a stream after blocked data; it stops at no data, a closing error, blocked data without a stream, or the 256th packet, and fails at a failed open or a fatal answer |
| `DrainTheorems.PayloadsInOrder` | src/connection.c:1140-1165 | the packets returned are those of the answers, each once, in order |
| `ConnectionProofs.PickIsFirst` | src/connection.c:245-287 | the picked entry is the first in table order that has work; none is picked only if none has work |
| `HistoryTheorems.PickedIff` | src/connection.c:245-287 | in every run, a stream is picked exactly if it came first among those that are neither closed nor reset and have unsent bytes or a pending FIN |
| `HistoryTheorems.OrderGrows` | src/connection.c:453-467 | the table keeps the order in which the streams came |
| `ConnectionProofs.RoundAt` | src/connection.c:1059-1138 | an iteration changes one stream by the library's answer, at most opens it first, and leaves all others alone |
| `ConnectionProofs.StepAt` | src/stream.c:113-220 | every other step changes the stream it names, as that operation does, and no other; and nothing the library has of any stream |
| `ConnectionProofs.RoundLife` | src/connection.c:1105-1138 | what an iteration does to flags and queue: a sync on closing errors, else at most one StreamWritable |
| `ConnectionProofs.StepKeepsStream` | src/callbacks.c:41-161 | every step keeps every stream's invariant |
| `ConnectionProofs.StepKeepsTable` | src/connection.c:453-467 | every step keeps the table: one entry an ID, order without repeats |
| `ConnectionProofs.StepKeepsLife` | src/connection.c:217-243 | every step keeps the relations between flags and events |
| `ConnectionProofs.StepKeepsWritable` | src/connection.c:321-326 | every step keeps writable streams open, while IDs are fresh |
| `ConnectionProofs.RunKeepsInv` | src/connection.c:1046-1171 | all invariants hold after any run |
| `ReceiveTheorems.ReceivedBytesConserved` | src/callbacks.c:81-91 | for every interleaving of data callbacks and reads, the bytes read followed by the buffered ones are the bytes delivered |
| `ReceiveTheorems.ReadReturnsNextBytes` | src/stream.c:103-110 | in every run, a read returns exactly the next bytes that the peer sent, as many as asked for or all that have arrived |
| `ReceiveTheorems.BufferedIsAnnounced` | src/stream.c:109 | readable implies buffered bytes, and bytes wait unannounced only after a reset |
| `ReceiveTheorems.ReadableIsEdgeTriggered` | src/callbacks.c:87-91 | between two StreamReadable events of a stream there is a read that emptied it or a local reset |
| `ReceiveTheorems.WritableIsEdgeTriggered` | src/connection.c:321-326 | with fresh IDs, between two StreamWritable events there is a write, end, reset, close or the end of sending |
| `ReceiveTheorems.ReadableEvent` | src/callbacks.c:87-91 | StreamReadable is raised only when the stream turns readable |
| `ReceiveTheorems.WritableEvent` | src/connection.c:1208-1209 | StreamWritable is raised only on a new entry or when the stream turns writable, unless an ID was reused |
| `EventTheorems.ReadableEventIff` | src/callbacks.c:87-91 | StreamReadable is raised exactly when the stream turns readable, except by a read |
| `EventTheorems.SilentRiseIff` | src/stream.c:109 | a stream turns readable without an event exactly by a read that leaves bytes on an unreadable stream, which then has been reset |
| `EventTheorems.SilentRiseCounterexample` | src/stream.c:211-216 | a run with a reset after which a read makes the stream readable silently |
| `EventTheorems.BufferedWasAnnounced` | src/callbacks.c:83-91 | in every run, if bytes wait on a stream that was not reset, StreamReadable has been raised since its buffer was last empty |
| `EventTheorems.WritableEventIff` | src/connection.c:321-326 | StreamWritable is raised exactly when an open returns the stream or it turns writable later |
| `EventTheorems.StreamEventsIff` | src/callbacks.c:100-136 | StreamOpened, StreamClosed and StreamReset are raised exactly by opens, closes and resets of either side |
| `EventTheorems.LifeEventsIff` | src/connection.c:217-243 | in every run, each connection event is raised exactly when its flag rises |
| `EventTheorems.EventsSay` | src/connection.c:199-215 | who caused an event, its error code and reason; no step raises two events of one kind |
| `Buffer.Read` | src/buffer.c:26-50 | chunk and rest are the buffer, split at the length read, though the rest is shifted in place |
| `Buffer.Append` | src/buffer.c:9-24 | the buffer followed by the data; the same buffer if there is none |
| `Buffer.MoveDown` | src/buffer.c:45 | the overlapping move keeps the moved bytes |
| `Buffer.ReadLen` | src/buffer.c:35-36 | the smaller of limit and length |
| `LifecycleTheorems.LifecycleInEveryState` | src/connection.c:217-243 | closed exactly if ConnectionClosed was raised, draining exactly if ConnectionDraining was, the implications between flags, and each connection event at most once |
| `LifecycleTheorems.FlagsNeverFall` | src/connection.c:1287-1313 | no flag of a connection is ever cleared |
| `LifecycleTheorems.OneClosePacket` | src/connection.c:1000-1044 | any number of drains yields at most one close packet, and none without close() (section 10.2 of RFC 9000) |
| `LifecycleTheorems.DrainSettlesClose` | src/connection.c:1000-1044 | after a drain that does not fail no close packet is due |
| `LifecycleTheorems.CloseErrorIff` | src/connection.c:1287-1307 | in any run after close(), the close packet that is written carries the code given and the reason, if not empty, exactly unless the code is 0 and a recv has failed since; then it carries the library's error |
| `LifecycleTheorems.CloseErrorCounterexample` | src/connection.c:879-887 | a run in which a failing recv replaces the error of close() with code 0 in the packet |
| `LifecycleTheorems.CallbacksKeepClosed` | src/server_connection.c:569-587 | callbacks alone neither close a connection nor open it again; so an accepted one is open |
| `LifecycleTheorems.EventsDeliveredInOrder` | src/connection.c:956-971 | events handed out followed by queued ones are all events raised, in order |
| `LifecycleTheorems.LogGrows` | src/connection.c:199-215 | raised events and handed-out events are never taken back |
| `LifecycleTheorems.UndrainedEventsStay` | src/connection.c:956-971 | nothing leaves a connection's queue but by draining this connection |
| `LifecycleTheorems.StoppedMeansClosedIff` | src/connection.c:1126-1129 | after a write answered with CLOSING, DRAINING or IDLE_CLOSE the connection is closed exactly unless it was an idle timeout outside of a period on an open connection |
| `LifecycleTheorems.StoppedReadMeansClosedIff` | src/connection.c:870-893 | the same for recv and handleTimers, after any callbacks |
| `LifecycleTheorems.IdleCloseCounterexample` | src/connection.c:102-105 | a run whose only step is a write answered with IDLE_CLOSE, and after which the connection is open |
| `StreamIdTheorems.OrderlyRunsPredictIds` | src/connection.c:402-420 | in orderly runs no mismatch, no reused ID; the pending IDs are exactly the library's next one, plus 4, up to the prediction, which is new; residues follow section 2.1 of RFC 9000 |
| `StreamIdTheorems.PredictionComesTrueIff` | src/connection.c:1063-1092 | in a state with right counters, an open in the drain loop yields the picked ID exactly if the stream that the library opens has something to send |
| `StreamIdTheorems.DirectOpenFreshIff` | src/connection.c:1187-1204 | if all streams not opened yet are still pending, a direct open returns a new ID exactly if none of its direction is pending |
| `StreamIdProofs.RunKeepsTracks` | src/connection.c:402-420 | after any run without a mismatch, of each direction exactly the IDs below the prediction are in the table, in increasing order, and the pending ones are among those the library has not opened yet |
| `StreamIdProofs.StepKeepsTracks` | src/stream.c:211-216 | every step keeps this, also resets of pending streams and direct opens beside pending ones |
| `StreamIdTheorems.GentleRunKeepsIds` | src/connection.c:402-420 | after every run without resets of pending streams, direct opens beside pending ones, or a mismatch, in whatever order pending streams are given data, every stream that the library has not opened yet is pending |
| `StreamIdTheorems.MismatchIff` | src/connection.c:1063-1092 | after any run without a mismatch, the next open of a pending stream in the drain loop ends in the mismatch exception exactly if the stream that the library opens has nothing to send: no data or FIN, or it was reset |
| `StreamIdTheorems.ReuseIff` | src/connection.c:1187-1204 | after any run without a mismatch, the next open returns an ID that is in the table exactly if it succeeds directly while the prediction is ahead of the library's next ID |
| `StreamIdTheorems.OnlyOpenedAreOffered` | src/connection.c:1063-1092 | after any run without a mismatch, no own stream is offered before the library has opened it |
| `StreamIdTheorems.IdsFit` | src/connection.c:1197-1202 | every step raises the counters by at most 4; so all of them, and every ID an open returns, fit a signed 64-bit integer in runs of fewer than 2^61 - 1 steps |
| `StreamIdTheorems.OrderlyStep` | src/connection.c:1187-1245 | every orderly step keeps the prediction right |
| `StreamIdTheorems.OrderedRoundOpensPredicted` | src/connection.c:1072-1080 | with pending streams queued in order an iteration never mismatches |
| `StreamIdTheorems.MismatchCounterexample` | src/connection.c:1073-1078 | a run that ends in the mismatch exception |
| `StreamIdTheorems.ResetMismatchCounterexample` | src/stream.c:211-216 | a run in which the first pending stream has data and yet opening it ends in the mismatch, because an earlier one was reset |
| `StreamIdTheorems.ReuseCounterexample` | src/connection.c:1198-1204 | a run in which an open returns an ID twice |
| `StreamIdTheorems.ResetReuseCounterexample` | src/stream.c:211-216 | a run with no stream pending, in which an open returns the ID of a reset stream, which is then writable and closed |
| `Connection.StreamEntry.constructor` | src/connection.c:179-197 | a new entry has empty buffers, is writable, and has no other flag set |
| `Connection.StreamEntry.UpdateTxEntry` | src/connection.c:289-327 | computes the specified update and whether to notify |
| `Connection.StreamEntry.DiscardTx` | src/connection.c:329-342 | drops the unsent bytes and counts the FIN as sent |
| `Connection.Connection.constructor` | src/connection.c:1360-1394 | a new connection is in the initial state, from which all runs start |
| `Connection.Connection.PushEvent` | src/connection.c:199-215 | appends one event to queue and log, and changes nothing else |
| `Connection.Connection.SyncState` | src/connection.c:217-243 | closed and draining follow the library's periods, with each event raised at most once; nothing else changes |
| `Connection.Connection.EnsureNextStreamId` | src/connection.c:402-420 | yields and stores the predicted ID: the counter, or the side's first ID if the counter is none of the side's |
| `Connection.Connection.OpenStreamEntry` | src/connection.c:453-467 | finds the entry or files a new one; nothing else changes |
| `Connection.Connection.OpenStream` | src/connection.c:1173-1253 | the open step for either direction, with its error cases and returned ID |
| `Connection.Connection.Write` | src/stream.c:113-144 | the write step; succeeds exactly on an existing, send-capable stream that has not ended |
| `Connection.Connection.End` | src/stream.c:146-175 | the end step; succeeds exactly on an existing send-capable stream |
| `Connection.Connection.Reset` | src/stream.c:177-220 | the reset step; fails exactly for a missing entry or if the library of an open connection refuses |
| `Connection.Connection.Read` | src/stream.c:87-111 | the read step; the chunk is the buffer's first bytes, as many as asked for or all, taken out by `Buffer.Read`; refuses a length of 0 or less, yields nothing for a missing entry |
| `Connection.Connection.Close` | src/connection.c:1273-1314 | the close step, with the application's code and reason recorded for the packet; without effect the second time |
| `Connection.Connection.DrainEvents` | src/connection.c:956-971 | hands out exactly the queue; then everything ever raised has been handed out |
| `Connection.Connection.PickTxStream` | src/connection.c:245-287 | the specified pick, its unsent bytes and its FIN |
| `Connection.Connection.PickAndOpen` | src/connection.c:1050-1092 | the first half of an iteration, with blocked, failed and mismatching opens |
| `Connection.Connection.UpdateTx` | src/connection.c:289-327 | the update of an entry and its event |
| `Connection.Connection.WriteAndReact` | src/connection.c:1094-1138 | the second half: one write and the reaction to each kind of answer |
| `Connection.Connection.RoundBody` | src/connection.c:1046-1168 | an iteration is the specified round with this library's answers, and the loop goes on as specified |
| `Connection.Connection.MeasuredRound` | src/connection.c:1046-1168 | the progress that makes the loop stop |
| `Connection.Connection.DrainLoop` | src/connection.c:1046-1168 | stops for every library that keeps the contract, after at most 256 packets; its iterations are exactly those the answers ask for, up to the one that ends or fails the loop; it returns every packet in order |
| `Connection.Connection.DrainClose` | src/connection.c:1000-1044 | the close branch: exactly one close-write, at most one packet; it fails exactly if the write failed, and is due again only then |
| `Connection.Connection.DrainOutgoingDatagrams` | src/connection.c:973-1171 | the run grows by one close-write, or by one complete loop and a sync; it fails exactly if one of these failed; the result is all packets of the steps taken, and on success no close packet is due |
| `Connection.Connection.HandshakeCompletedCb` | src/callbacks.c:41-52 | the run grows by the handshake step: the event is raised the first time only |
| `Connection.Connection.StreamOpenCb` | src/callbacks.c:54-69 | for every ID the stream-open step: an entry found or made, writable exactly if the side may send; the run grows if the library keeps its contract |
| `Connection.Connection.RecvStreamDataCb` | src/callbacks.c:71-98 | the run grows by the data step: bytes appended, announced if nothing was announced |
| `Connection.Connection.StreamCloseCb` | src/callbacks.c:100-117 | the run grows by the peer's close of a stream, made if it is not there |
| `Connection.Connection.StreamResetCb` | src/callbacks.c:119-136 | the run grows by the peer's reset of a stream, made if it is not there |
| `Connection.Connection.AckedStreamDataCb` | src/callbacks.c:138-161 | the run grows by the acknowledgement step, ignored for a missing or ended entry |
| `Connection.Connection.Recv` | src/connection.c:870-893 | nothing for an invalid address, which is refused; else the run grows by the library's callbacks and then a sync, or its failure, recorded if no error is; it succeeds exactly if the library did; after an error that is no failure the connection is closed exactly unless it was an idle timeout outside of a period on an open connection |
| `Connection.Connection.HandleTimers` | src/connection.c:79-100 | the same for an expired timer, whose failure is recorded in any case; no step at all on a closed connection |
| `Connection.Connection.GetNextTimeout` | src/connection.c:49-77 | the rounded wait, null if closed |
| `Connection.Connection.GetNextExpiry` | src/connection.c:923-939 | the same on the epoch clock |
| `EventQueue.Queue.Push` | src/queue.c:30-50 | appends to the contents, keeps the list one chain from head to tail with its size, adds one reference |
| `EventQueue.Queue.Pop` | src/queue.c:52-71 | takes the first of the contents, or says there is none |
| `EventQueue.PushEvent` | src/connection.c:199-215 | the new reason is held by the queue alone, all counts stay equal to the holders, and the list stores the connection's queue with the event posted |
| `EventQueue.PopOwned` | src/queue.c:52-71 | the popped event's reference passes to the caller |
| `EventQueue.ReleaseEvent` | src/queue.c:9-14 | the caller's reference goes, all counts stay right |
| `EventQueue.CreateFromNative` | src/event.c:180-200 | the object shows the event with its timestamp and holds one reference, to the reason or to a new empty string |
| `EventQueue.DrainEvents` | src/connection.c:966-970 | the objects show exactly the connection's queued events, in order, the list stores the empty queue, and every count equals its holders |
| `EventQueue.Destroy` | src/queue.c:22-28 | the queue is empty and every count is that of the outside holders |
| `EventQueue.ReasonsCons` | src/queue.c:60-67 | what a popped event held and what the rest holds are what the queue held |
| `ServerEndpoint.WithoutFilters` | src/server_endpoint.c:87-119 | removing keys keeps exactly the others, in their order |
| `ServerEndpoint.WithoutTwice` | src/server_endpoint.c:111-116 | removing one key after the other is removing them all |
| `ServerEndpoint.ServerEndpoint.CollectDead` | src/server_endpoint.c:95-109 | the first phase finds exactly the removable connections |
| `ServerEndpoint.ServerEndpoint.DeleteAll` | src/server_endpoint.c:111-116 | the second phase removes exactly these keys |
| `ServerEndpoint.ServerEndpoint.Cleanup` | src/server_endpoint.c:87-119 | the two phases are exactly the order-preserving filter by the removal test |
| `ServerEndpoint.ServerEndpoint.CloseNeverLost` | src/server_endpoint.c:103-108 | no cleanup removes a connection whose close packet is still due, and none that may be removed stays |
| `ServerEndpoint.ServerEndpoint.RemovedWereSettled` | src/server_endpoint.c:103-108 | at any time, an accepted connection that is not registered had closed with no close packet due when it was removed |
| `ServerEndpoint.ServerEndpoint.OthersKept` | src/server_endpoint.c:56-67 | a call on one connection leaves the endpoint valid, and the run and queue of every other connection as they were |
| `ServerEndpoint.ServerEndpoint.Recv` | src/server_endpoint.c:135-204 | a known peer's datagram is received by its connection alone, exactly if the addresses are valid, and the call succeeds exactly if the library read it; an unknown peer's is accepted exactly if addresses, setup and first packet are good, and then yields one fresh connection, registered under the key and queued, which the cleanup keeps; no other connection makes a step; an address without host changes nothing |
| `ServerEndpoint.ServerEndpoint.AcceptNew` | src/server_endpoint.c:173-203 | the accepting half: it succeeds exactly if the addresses are valid, the setup works and the first packet is read; then the connection is registered and queued, else nothing changes |
| `ServerEndpoint.ServerEndpoint.Register` | src/server_endpoint.c:195-200 | registration and accept queue, in accept order without repeats |
| `ServerEndpoint.ServerEndpoint.HandleTimers` | src/server_endpoint.c:206-229 | every connection handles its timers once, in order, up to the first failure; then the cleanup is the filter, or after a failure perhaps none |
| `ServerEndpoint.ServerEndpoint.DrainOutgoingDatagrams` | src/server_endpoint.c:334-370 | every connection makes one drain, in order, up to the first failure; after success the result is all their packets in order, no registered connection is closed, and every locally closed one has made its close-write; a failure returns nothing |
| `ServerEndpoint.ServerEndpoint.DrainsMakeCloses` | src/server_endpoint.c:334-370 | if every connection has made a drain that did not fail, each locally closed one has made its close-write |
| `ServerEndpoint.ServerEndpoint.DrainAcceptedConnections` | src/server_endpoint.c:324-332 | hands out the queue; all handed out so far are then all accepted, in order |
| `ServerEndpoint.ServerEndpoint.DrainEvents` | src/server_endpoint.c:372-407 | returns the queues of the registered connections, one after the other, each once; that is their only step; connections removed before are untouched; then the filter |
| `ServerEndpoint.ServerEndpoint.NextDrainIff` | src/server_endpoint.c:95-119 | after a cleanup, as recv and handleTimers make it, a connection's queue is one stretch of the next drainEvents exactly if the connection was not settled; otherwise it is not asked |
| `ServerEndpoint.PeerCloseCounterexample` | src/connection.c:217-243 | one recv in which the peer closes queues two events and leaves the connection settled |
| `ServerEndpoint.ServerEndpoint.GetNextTimeout` | src/server_endpoint.c:285-322 | the wait for the earliest expiry of the open connections, exact for one clock reading, bounded by first and last reading otherwise; null exactly if there are none |
| `ServerEndpoint.ServerEndpoint.GetNextExpiry` | src/server_endpoint.c:241-278 | the same on the epoch clock, which every connection reads for itself |
| `ServerEndpoint.ServerEndpoint.FoldWait` | src/server_endpoint.c:304-309 | keeping the smaller wait is waiting for the earlier expiry |
| `ServerEndpoint.ServerEndpoint.GetConnectionCount` | src/server_endpoint.c:409-413 | the number of accepted connections that have not been removed, which is that of the registered peers |
| `Deadlines.TimeoutIsTight` | src/connection.c:61-77 | the wait never passes the expiry, is short by less than a millisecond, and fits a signed 64-bit value after adding the epoch clock |
| `Deadlines.TimeoutMonotone` | src/connection.c:72-76 | later expiries wait longer, later clocks shorter |
| `Deadlines.EarliestIsLeast` | src/server_endpoint.c:250-270 | the earliest expiry is one of them and none is before it |
| `Address.BareRoundTrip` | src/address.c:65-78 | for every host: host:port is read back exactly if the host is not empty, has neither a colon nor a NUL, and does not start with an opening bracket |
| `Address.BracketedRoundTrip` | src/address.c:48-64 | for every host: [host]:port is read back exactly if the host is not empty and has neither a closing bracket nor a NUL |
| `Address.BareBracketCounterexample` | src/address.c:48-64 | the bare form of the host [a] is read back as a |
| `Address.ParsedIsAddress` | src/address.c:80-94 | whatever is accepted, also with NULs, has a non-empty host without NUL and a port from 0 to 65535 |
| `Address.AcceptedIff` | src/address.c:34-95 | for every string: it is accepted exactly if up to its first NUL it is host:port or [host]:port with such a port and a host of the right kind, and these are the result |
| `Address.ParserSeesC` | src/address.c:36 | the parser sees the string up to its first NUL only |
| `Address.PrintedPortParses` | src/address.c:84-90 | every decimal port is read back by strtol |
| `Address.PortTextIff` | src/address.c:80-90 | a text is a port exactly if up to its first NUL it is blanks, at most one sign and digits with a value from 0 to 65535, so the decimal form is not the only one |
| `Address.KeysEqualIff` | src/server_endpoint.c:40-54 | two peers share a key exactly if port and host up to the first NUL agree |
| `Address.SharedKeyCounterexample` | src/server_endpoint.c:53 | two different hosts, one with a NUL, that get the same key |

## Left out

- ngtcp2, GnuTLS, packet contents, connection IDs and random numbers: foreign code, present only as the contract above.
- `ServerConnection::accept` and the constructor of client connections: staged setup calls; the endpoint needs only a fresh connection or a failure.
- Connections without a native handle: objects whose constructor threw; every call on them is refused or empty.
- `Connection.Connection.Recv`: takes it as given whether the addresses are valid, because address conversion is the operating system's.
- `Connection.Connection.OpenStream`: IDs are unbounded; they fit 64 bits in runs of fewer than 2^61 - 1 steps (`StreamIdTheorems.IdsFit`), longer runs are not modelled.
- `Connection.Connection.Read`: between calls the received bytes are kept as a value and not as an array, so sharing of a buffer between entries is not modelled.
- `Connection.Connection.PushEvent`: keeps the queue as a value and events without timestamps; the list, the timestamps and the strings are in `EventQueue`, which stores the same queue.
- Fairness between streams: the picker is first in table order, so a stream may wait behind another for ever.
- `ClientConfig`, `ServerConfig`, `Datagram`, class registration and object handlers: getters, setters and plumbing with easy properties.
- `getaddrinfo`, `inet_ntop` and socket addresses: operating-system calls.
