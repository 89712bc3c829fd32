# gfile: a verified model

gfile sends one file from a sender to a receiver over WebRTC data channels, either on a single
connection or striped over up to sixteen. This project models both sides in Dafny and proves, among
other things, that a transfer that ends without an error has reproduced the file, whatever the
interleaving of routines and channels; that every transfer whose environment does its part ends; and
that it delivers the file exactly when a verification gets to the receiver's done gate before the news
that the sender has closed its channels. The sender always closes them when it is done, and the model
shows that this can cost a receiver a file that has arrived whole. Failures are exact, too: every fault on
either side can decide the transfer with its own error as long as nobody else has, no transfer fails
without a fault, and none succeeds once its sender has given up.

## How the model is built

Code that changes objects or fills buffers is imperative Dafny, proved against specification functions:
the codecs, the framed channel with its reused buffer, the statistics, the stream readers and both chunk
loops, the receive core with its integrity check, and the single- and multi-connection handlers.
Concurrent code is a step system: one event is one action of one routine, any event that can happen may
come next, and theorems speak about every run.

| file | what it holds |
|---|---|
| `Bytes.dfy` | bytes, machine words, big-endian fields |
| `Base45.dfy` | the base45 codec and the relation of RFC 9285, section 4 |
| `Frames.dfy` | the frame codec, `Dispatch`, and the framed channel |
| `Stats.dfy` | bandwidth ring, pause-aware clock, statistics |
| `Producers.dfy` | pieces of a file, compression, readers, `multiProduce`, `sendFile`, `preHash` |
| `Tally.dfy` | sums over sequences |
| `Pipeline.dfy`, `PipelineProofs.dfy`, `PipelineTheorems.dfy` | the striping pipeline of the sender, its invariant, and what runs guarantee |
| `Coverage.dfy` | from counted bytes to covered bytes |
| `ReceiverCore.dfy` | the receive core on values and as an object, and `verifyIntegrity` |
| `SinglePc.dfy` | the single-connection handler and the whole single-connection transfer |
| `MultiReceiver.dfy`, `ReceiverProofs.dfy` | the multi-connection receiver as a step system against any sender, and its invariant |
| `Shutdown.dfy`, `ShutdownRuns.dfy` | done gate and session life cycle over whole runs, and runs that show where they end |
| `Failures.dfy` | what fails a transfer at the receiver: every fault is reported and can decide, nothing else does |
| `MultiRouter.dfy` | the router with its core: what any sequence of handlers does, and the object proved against it |
| `Uninterrupted.dfy` | the step system without interruptions, whole verifications and data turns included, is that router |
| `Handshake.dfy`, `HandshakeProofs.dfy` | the sender's side of the handshake and what it keeps |
| `Transfer.dfy` | sender, channels and receiver as one system |
| `TransferProofs.dfy`, `TransferSteps.dfy`, `TransferReceiving.dfy`, `TransferWriting.dfy`, `TransferLocal.dfy`, `TransferTheorems.dfy` | the invariant of the whole system, one file a kind of step, and the theorems |
| `SenderFailures.dfy` | what becomes of a transfer whose sender fails |
| `Delivery.dfy`, `DeliveryProgress.dfy`, `DeliveryEnds.dfy`, `DeliveryTheorems.dfy` | transfers whose environment does its part, up to and past the sender's close: invariant, progress, measure, and how they end |

A data channel is the log of everything sent on it with a count of what has been read: reliable, in
order, copying on send. It can open at the receiver once the sender has accepted the answer. zstd is a
pair of functions with `decode(encode(x)) = x` and SHA-256 any function to 32 bytes. Clocks, timeouts and
poll intervals are steps that may happen at any time; the fate of Truncate, WriteAt, Sync, reads, sends
and session set-up is part of each event, good or bad.

## Where code and documentation differ

The model follows the code.

- `PROTOCOL.md` speaks of base64 descriptions; the code uses base45.
- The documentation allows an empty final chunk; neither chunk loop ever sends one.
- A receiver that rejects METADATA is said to answer ABORT; the receiver never sends ABORT, it fails locally.
- The comment on `AppendData` says that it appends; it overwrites from index 0.
- The close handler of the control channel reports a close before TRANSFER_COMPLETE; it looks at done only, so
  a close after TRANSFER_COMPLETE, which every sender makes, is reported and can fail the transfer in the same
  way. `DeliveryTheorems.VerifierOrClose` says exactly when it does.
- `Duration` is documented as excluding paused intervals; a pause that is still open is counted, and one
  resumed after Stop is subtracted in full. `Statistics.Stats.DurationIsActiveTime` says exactly when it does
  what is documented.

## Model

| member | source | states |
|---|---|---|
| TransferTheorems.StripingIsFaithful | pkg/transfer/sender/multi.go:137-208 | For every file, number of peers, codec, interleaving and failure: if done closes with a nil result, the output equals the source file byte for byte and is kept. Nothing is assumed about the hash. |
| TransferTheorems.NoDataLeft | pkg/transfer/receiver/core.go:103-128 | Once allBytesCh is closed (and nothing has failed) the output already is the file, every data channel has been read to its end, no handler holds an unwritten payload, and no step of the pipeline can send another frame. |
| TransferTheorems.ChannelsStaySilent | pkg/transfer/receiver/core.go:145-188 | From that moment to the end of the run no data channel carries anything new, so nothing is written while the file is verified. |
| TransferTheorems.NoProtocolErrors | pkg/transfer/receiver/multi.go:217-272 | The result never blames an honest sender (no DATA before METADATA, out of bounds or undecodable, no unexpected or duplicate frame, no failed digest); a handler reports such a thing only after another failure has already decided the result. |
| TransferTheorems.DecodersFollowCodec | pkg/transfer/receiver/multi.go:217-236 | Whoever takes DATA has the METADATA of the sender, a file of the announced size, and (until cleanup) a decoder exactly when the codec is zstd. |
| TransferTheorems.OpenAfterMetadata | pkg/transfer/receiver/multi.go:80-101 | No peer has accepted an answer, so no data channel can open, before the receiver has handled METADATA and sized the file. |
| TransferTheorems.CompleteIsTruthful | pkg/transfer/sender/multi.go:193-207 | When the receiver has handled TRANSFER_COMPLETE the whole file was read, every piece was sent exactly once over all peers, nothing was dropped by a worker or the drain loop, and the byte counter of the sender equals the size. |
| TransferTheorems.AnswersFindTheirPeers | pkg/transfer/sender/multi.go:348-357 | In every reachable state answerCh (capacity n) has never overflowed and no answer was for an unknown peer. |
| TransferTheorems.OneNegotiationEach | pkg/transfer/receiver/multi.go:88-101 | The receiver negotiates only ids the sender offered, with the description that peer offered; all answers come from different peers, so there are at most n. |
| TransferTheorems.LoopIsBounded | pkg/transfer/sender/multi.go:303-324 | Answers used plus peers waiting is always n, and each answer taken removes exactly one waiting peer. |
| TransferTheorems.SuccessMeansConnected | pkg/transfer/sender/multi.go:326-339 | negotiatePeers returns nil only when every peer accepted exactly one answer, the one its own offer got, and its channel is open. |
| TransferTheorems.ChannelsAfterAnswers | pkg/transfer/receiver/multi.go:217-236 | In every run a data channel is open at the receiver only for a peer whose answer the sender has accepted. |
| TransferTheorems.RunKeepsInv | pkg/transfer/sender/multi.go:137-208 | Every state of every run, with any failures, satisfies the invariant that links offers, negotiations, answers, channel logs, written bytes and counters. |
| TransferTheorems.ReceiverSteps | pkg/transfer/receiver/multi.go:80-272 | Every step of the whole system is a step of the receiver or leaves it alone, so what holds of all receiver runs holds here. |
| TransferProofs.AllCounted | pkg/transfer/receiver/core.go:118-121 | A byte count that has reached the size implies coverage: all frames are on the wire, taken, written and counted, and the output is the file. |
| TransferWriting.WriteData | pkg/transfer/receiver/core.go:114-116 | A write of an honest frame, complete, partial or failed, puts only bytes of the file where they belong and leaves every earlier piece in place. |
| TransferWriting.CountSum | pkg/transfer/receiver/core.go:118 | Counting one more frame adds exactly its piece length to the 64-bit counter, which never exceeds the file size, so it never wraps. |
| TransferReceiving.NotSwept | pkg/transfer/receiver/multi.go:184-201 | While a frame waits to be taken and nothing has failed, cleanup has not run: no decoder is taken away too early. |
| TransferReceiving.FrameIsAccepted | pkg/transfer/receiver/multi.go:256-260 | Every frame of the honest sender passes decompression and the bounds test and yields the piece of the file at its offset. |
| TransferTheorems.VerifierDecides | pkg/transfer/receiver/core.go:173-187 | Once a verification has entered the gate the result is nil or an error of syncing or reading the output, whatever closes, times out or breaks afterwards; if it is nil at the end the output is the file. |
| DeliveryTheorems.FileArrives | pkg/transfer/sender/multi.go:137-208 | Total correctness: if no close is reported while the gate is free, every run, the close of the sender included, is bounded by the file size and the number of peers, and one in which no ordinary step is left has closed done with a nil result and delivered and kept the file. |
| DeliveryTheorems.TransferEnds | pkg/transfer/sender/multi.go:137-208 | Whenever the sender closes and whenever the receiver notices, the run is bounded, and until done is closed some ordinary step can be taken. |
| DeliveryTheorems.VerifierOrClose | pkg/transfer/receiver/multi.go:207-215 | The outcome, exactly: at the close of done the result is nil if and only if a verification took the gate, and then the output is the file and is kept; otherwise it is the error of a closed channel and the output is removed when it has a path. |
| DeliveryTheorems.CloseCanWin | pkg/transfer/receiver/multi.go:207-215 | As long as the gate is free any such run in which the sender has completed can go on so that the close of the control channel is the result and the output is removed. |
| DeliveryTheorems.WholeFileCanBeLost | pkg/transfer/sender/multi.go:137-208 | For every plan a run in which nothing is closed and nothing fails until the sender has completed and the output equals the file, and which ends with an early close and the output removed. |
| DeliveryTheorems.RunCanBeFinished | pkg/transfer/sender/multi.go:137-208 | Every run in which no close has done harm can be continued by ordinary steps alone to one that has delivered the file. |
| DeliveryEnds.StepLowers | pkg/transfer/sender/multi.go:161-205 | Every ordinary step, of either side, of any routine, and whether or not the transfer has failed, leaves strictly less work; only a fail call that is too late just goes away. |
| DeliveryProgress.AlwaysGoes | pkg/transfer/receiver/multi.go:103-112 | Until done is closed some routine can take an ordinary step, whatever has been closed. |
| DeliveryProgress.HandshakeGoes | pkg/transfer/sender/multi.go:284-336 | Until negotiatePeers has returned, some offer, negotiation, answer or opening can move on. |
| Delivery.StepSmooth | pkg/transfer/sender/multi.go:137-208 | An ordinary step keeps the transfer free of failures, with nobody new calling fail, unless it lets the fail of a closed channel into the gate. |
| Delivery.NoticeSmooth | pkg/transfer/receiver/multi.go:238-253 | The news of a closed channel makes at most one routine call fail, and changes nothing else that matters. |
| Coverage.WireHoldsEveryPiece | pkg/transfer/sender/multi.go:47-111 | When the bytes on the wire make up the file, every piece of the file is on exactly one channel exactly once. |
| Coverage.CoveredIsEqual | pkg/transfer/receiver/core.go:114-118 | If the frame of every piece has landed, the output is the file. |
| Coverage.SumBelow | pkg/transfer/receiver/core.go:118-121 | Counted bytes are at most the bytes sent, with equality only when every frame of every channel is counted. |
| Handshake.IdsDistinct | pkg/transfer/sender/multi.go:223-231 | uint8(ndx) gives distinct ids to n peers exactly when n is at most 256, hence for every n Config.Validate accepts. |
| Handshake.CollectAnswers | pkg/transfer/sender/multi.go:298-324 | The select loop runs at most n rounds over any sequence of wakes and succeeds exactly when the first n wakes are accepted answers of n different peers; otherwise what it took so far is a list of accepted answers of different peers. |
| Handshake.WaitForAll | pkg/transfer/sender/multi.go:298-301 | The loop fills the waiting map with every peer under its id. |
| HandshakeProofs.HearFlows | pkg/transfer/sender/multi.go:348-357 | Queueing the next answer cannot overflow, because answers come from different peers (pigeonhole). |
| HandshakeProofs.TakeAnswerFlows | pkg/transfer/sender/multi.go:305-315 | The answer taken belongs to a peer that is waiting, and is given to that peer and no other. |
| HandshakeProofs.OfferIsFresh | pkg/transfer/receiver/multi.go:88-93 | The next offer on the control channel is for an id without a negotiation, so an honest sender is never refused as a duplicate. |
| SenderFailures.FailureAborts | pkg/transfer/sender/multi.go:137-153 | The coordinating routine goes on to abort exactly after METADATA that cannot be sent, peers that cannot be built, an unknown or refused answer, a queued error or the deadline; an offering routine that fails queues one error, which can be taken as long as answers are missing. |
| SenderFailures.FailureIsFatal | pkg/transfer/sender/multi.go:137-208 | In every run of the whole system: once the sender has given up, in the handshake, because of a read, a worker or an unsent TRANSFER_COMPLETE, done never closes at the receiver with nil, and the file is removed if and only if it has a path. |
| SenderFailures.HandshakeAbortArrives | pkg/transfer/sender/multi.go:144-153 | From every run in which the handshake has failed while the control loop of the receiver goes on and nobody has decided: the ABORT can go out, arrive after everything sent before, and end the receiver with exactly its reason. |
| SenderFailures.PipelineAbortArrives | pkg/transfer/sender/multi.go:181-191 | The same for a pipeline that has failed by a read error or a worker. |
| PipelineProofs.StepKeepsInv | pkg/transfer/sender/multi.go:47-205 | Every step of producer, workers and coordinator, failing or not, keeps: one owner a buffer, one place a chunk, buffer contents equal to the file, bytes in play equal to bytes read, loss only with a failed worker. |
| PipelineTheorems.BufferHasOneOwner | pkg/transfer/sender/multi.go:28-106 | In every reachable state every pooled buffer is in exactly one of pool, producer hand, queue, worker hand and drain hand, and at most once in the pool, so it is released once per Get. |
| PipelineTheorems.SentFramesAreTheFile | pkg/transfer/sender/multi.go:89-105 | Every frame ever sent on any peer carries the encoding of the bytes of the file at its offset, although buffers are recycled. |
| PipelineTheorems.ChunkSentOnce | pkg/transfer/sender/multi.go:89-106 | No chunk is sent twice, on one peer or on two. |
| PipelineTheorems.CompleteIsTruthful | pkg/transfer/sender/multi.go:181-205 | TRANSFER_COMPLETE is reached only with the whole file read, every piece sent once, nothing lost and the byte counter equal to the size. |
| PipelineTheorems.NoDeadlock | pkg/transfer/sender/multi.go:161-191 | From every reachable state, whatever failed or was cancelled, some routine can take an ordinary step until the coordinator has ended. |
| PipelineTheorems.StepDecreasesWork | pkg/transfer/sender/multi.go:47-191 | Every step, ordinary or failing, lowers a measure over unread bytes, queue, held chunks, live workers and the coordinator. |
| PipelineTheorems.EveryRunEnds | pkg/transfer/sender/multi.go:161-208 | Every run is at most ten steps a piece and two a worker plus a constant long, and one that cannot go on has completed, failed to send the last frame, or aborted. |
| PipelineTheorems.FaultIsFatal | pkg/transfer/sender/multi.go:161-191 | After a read error or a worker that gave up no run completes: it can only end in an abort. |
| PipelineTheorems.AbortHasCause | pkg/transfer/sender/multi.go:161-191 | Every abort has such a cause earlier in the run: a failed read, a refused chunk, an encoder that could not be made, or a cancelled context. |
| PipelineTheorems.QueueIsBounded | pkg/transfer/sender/multi.go:161 | At most two chunks a peer are ever queued, and the producer waits exactly when the channel is full. |
| Producers.MultiProduce | pkg/transfer/sender/multi.go:47-73 | For every short-read pattern the pieces pushed are the pieces of the file (only full ones when the reader fails), and the error is returned exactly when the reader fails. |
| Pieces.PiecesTile | internal/protocol/frame.go:10-13 | The pieces of a file start at the offset, follow each other without gap, all have ChunkSize except a non-empty last one, and concatenate to the file. |
| Producers.ReadFull | pkg/transfer/sender/single.go:82 | io.ReadFull returns the next bytes of the stream and the error its count implies, for every pattern of short reads and eager ends. |
| Producers.SendFile | pkg/transfer/sender/single.go:76-105 | For any fate of every message: the messages go out in order up to the first that is refused or whose wait for the buffer is cancelled (that one is sent, too); the error tells a read failure from a send failure, refused or cancelled, from success; the statistics count exactly the pieces sent without an error. |
| Producers.MessagesArePieces | pkg/transfer/sender/single.go:81-104 | Dispatching the messages of sendFile yields the pieces in order, each encoded on its own, then EOF exactly when the stream ends well. |
| Producers.ProducersAgree | pkg/transfer/sender/multi.go:52-71 | Both chunk loops emit the same pieces if and only if the stream ends without a failure or fails on a piece boundary. |
| Producers.PreHash | pkg/transfer/sender/single.go:107-121 | The digest and the size of the whole stream, rewound to the start, exactly when neither reading nor seeking fails. |
| ReceiverProofs.StepKeepsInv | pkg/transfer/receiver/multi.go:80-272 | Every action of every routine of the receiver, against any sender, keeps the invariant of gate, file size, handlers, sessions and answers. |
| Shutdown.DoneClosesOnce | pkg/transfer/receiver/core.go:134-143 | Over every interleaving of any number of fail and verifyAndClose calls done closes at most once, cleanup runs at most once, and exactly once by then. |
| Shutdown.FirstFailureDecides | pkg/transfer/receiver/core.go:134-143 | The first failure that enters the gate fixes the result for the rest of the run. |
| Shutdown.FirstVerifierDecides | pkg/transfer/receiver/core.go:173-187 | Once a verification holds the gate only its own sync, read or digest failure can become the result. |
| Shutdown.KeptExactlyWhenNil | pkg/transfer/receiver/core.go:173-200 | When done closes the file is closed; it is removed exactly when the result is non-nil and a path is set; a nil result means METADATA size, file length and bytes read back agree and the digest of those bytes is the announced one. |
| Shutdown.NothingAfterDone | pkg/transfer/receiver/core.go:103-143 | After done no frame and no routine changes the file, the result or whether the file is removed. |
| Shutdown.CloseDecidesWhileFree | pkg/transfer/receiver/multi.go:208-215 | The close handler of the control channel can decide the result exactly while nobody holds the gate: then its fail may enter at once, otherwise no fail enters ever again. |
| ShutdownRuns.CloseAfterCompleteCanFail | pkg/transfer/receiver/multi.go:208-215 | A concrete run: every byte has arrived and TRANSFER_COMPLETE was handled, and a close of the control channel still fails the transfer. |
| Shutdown.QuietVerificationIsExact | pkg/transfer/receiver/core.go:173-187 | If nothing is written while a verification runs, a nil result means the file itself has the announced digest. |
| ShutdownRuns.LateWriteEscapesVerification | pkg/transfer/receiver/core.go:173-187 | A concrete run against a dishonest sender: a frame written between the read-back and the close leaves a nil result and a file with another digest, for any byte that changes the digest. |
| Shutdown.SessionClosedOnce | pkg/transfer/receiver/multi.go:50-58 | No interleaving of negotiation, failure, verification and cleanup closes a peer session twice. |
| Shutdown.SweptPeersAreClosed | pkg/transfer/receiver/multi.go:184-201 | Every peer that was in the map before the sweep is closed by the time done closes. |
| Shutdown.FailedExitCloses | pkg/transfer/receiver/multi.go:150-158 | Every return of a negotiator without success, once its session exists, leaves that session closed. |
| Shutdown.OpenSessionsExactly | pkg/transfer/receiver/multi.go:145-182 | After done an exited negotiator has left its session open if and only if it succeeded after joining the map between sweep and close of done; its check of done then came before that close. |
| Shutdown.JoinedAtIsTrue | pkg/transfer/receiver/multi.go:145-148 | The recorded moment of joining is the moment of the step of the run that put the peer into the map. |
| Shutdown.CheckedAtIsTrue | pkg/transfer/receiver/multi.go:168-174 | The recorded moment of the check is the moment of the step at which the negotiator looked at done and found it open. |
| Failures.FaultIsReported | pkg/transfer/receiver/core.go:57-188 | Against a list of what is wrong with each action, written apart from the step system: an action outside the gate that is at fault, and no other, adds one call of fail with exactly its fault. |
| Failures.ReportsStay | pkg/transfer/receiver/core.go:134-143 | Over any run a call of fail waits as long as the gate is free: no report is lost before somebody has decided. |
| Failures.ResultHasCause | pkg/transfer/receiver/core.go:134-188 | In every run a result other than nil is, exactly, the fault of some earlier action. |
| Failures.FaultCanEnd | pkg/transfer/receiver/core.go:134-143 | Whatever run has led there: while the gate is free a fault can decide the transfer; the run can go on to a closed done with exactly that error, one cleanup, every joined peer closed and without decoder, and the file removed if and only if it has a path. |
| Failures.LoopEnds | pkg/transfer/receiver/multi.go:80-117 | The control loop ends exactly after a fault of a control frame, a second offer for an id, a frame out of place, or the end of the channel. |
| Failures.AbortEnds | pkg/transfer/receiver/multi.go:114-117 | After any run, an ABORT taken while the gate is free leaves one call of fail with exactly its reason, which may enter the gate, ends the control loop, and can become the result with the file removed if it has a path. |
| Failures.AbortDecides | pkg/transfer/receiver/multi.go:114-117 | If that call is the next step, the reason is the result in every later state and the file is removed if and only if it has a path. |
| Failures.AbortIsFatal | pkg/transfer/receiver/multi.go:103-117 | An ABORT taken before TRANSFER_COMPLETE is fatal in every run: whenever done closes the result is an error. |
| Failures.TimeOutEnds | pkg/transfer/receiver/core.go:154-165 | After any run, a verification whose timer fires while the gate is free is over, has called fail with the time-out, and can end the transfer with it and the file removed if it has a path. |
| Failures.TimeOutIsFatal | pkg/transfer/receiver/core.go:154-165 | If it was the only verification and the control loop is over, no continuation of the run ever ends with nil. |
| Failures.HopelessFails | pkg/transfer/receiver/core.go:145-188 | Once the control loop is over and every verification has returned without taking the gate, no run closes done with nil. |
| Failures.CheckDecides | pkg/transfer/receiver/multi.go:145-174 | A negotiator that nobody interrupts goes on to answer exactly when neither done nor the context stops it. |
| ShutdownRuns.SessionLeaks | pkg/transfer/receiver/multi.go:145-182 | A concrete run that leaves a session open after done. |
| MultiRouters.ReceivePeer.CloseSess | pkg/transfer/receiver/multi.go:50-58 | Whoever calls first closes the session; later calls change nothing. |
| MultiRouters.MultiRouter.Cleanup | pkg/transfer/receiver/multi.go:184-201 | Walking the map closes every peer in it, drops its decoder, and leaves reservations alone. |
| MultiRouters.MultiRouter.Fail | pkg/transfer/receiver/core.go:134-143 | The first failure sets the result, runs the cleanup of the router over the whole peer map, and removes the file; a later one changes nothing. |
| MultiRouters.MultiRouter.VerifyAndClose | pkg/transfer/receiver/core.go:147-188 | The object does to core and peer map what the specification says: the peers are swept exactly when the gate is taken. |
| MultiRouters.MultiRouter.InstallDataPeer | pkg/transfer/receiver/multi.go:217-236 | Installs a decoder exactly when METADATA says zstd; when it cannot be made the transfer fails and the peers are swept. |
| MultiRouters.MultiRouter.OnPeerData | pkg/transfer/receiver/multi.go:256-260 | Decompresses when the peer has a decoder, then writes; either error fails the transfer and sweeps the peers. |
| MultiRouters.MultiRouter.Receive | internal/session/channel.go:192-210 | One turn of the control loop on the object: the handler of the frame, and the end of the loop when it returns an error, as specified. |
| MultiRouters.ServeAll | pkg/transfer/receiver/multi.go:60-78 | An object that serves any sequence of calls, from its construction on, reaches exactly the state of the specification. |
| RouterSpec.PeersClosedOnce | pkg/transfer/receiver/multi.go:184-201 | After any handlers in any order: cleanup has run once if the transfer is over and not otherwise, every peer published before the end is closed, and no session is closed twice. |
| RouterSpec.HandlerGoes | pkg/transfer/receiver/multi.go:80-117 | Every handler keeps core and map consistent and loses no peer; one that ends the transfer closes everybody in the map. |
| Uninterrupted.OneAction | pkg/transfer/receiver/multi.go:80-117 | Every handler that is one action of the step system - each control frame, joining, leaving, a failed negotiator, installing a data peer, a frame it refuses, the watchers, the end of the control loop - does, with the fail call it may make, exactly what the handler of the router does. |
| Uninterrupted.TurnIsHandler | pkg/transfer/receiver/core.go:87-128 | The actions of a data turn, run without interruption and whatever becomes of the write, do with the fail call that may follow exactly what ingestData and writeChunk do in one go. |
| Uninterrupted.FailIsFail | pkg/transfer/receiver/core.go:134-143 | A waiting fail call, from the gate to the close of done and without interruption, does to core, peer map and control loop exactly what fail does. |
| Uninterrupted.LateFail | pkg/transfer/receiver/core.go:134-143 | A fail call that comes when the gate has been left changes nothing, as in the router. |
| Uninterrupted.VerifyIsHandler | pkg/transfer/receiver/core.go:147-188 | A verification from its start, run without interruption - no METADATA, done already closed, the timer, missing or too many bytes, a failing sync, a failing block, a wrong digest, or success - does with the fail call it may make exactly what verifyAndClose does. |
| CoreSpec.BoundsTestIsExact | pkg/transfer/receiver/core.go:109-113 | The 64-bit test with wrap-around accepts a write exactly when its true end lies within the announced size. |
| CoreSpec.ArbitraryFrames | pkg/transfer/receiver/core.go:57-128 | After any sequence of frames, failures and verifications: once METADATA has succeeded the file keeps the announced size, the counter is the 64-bit sum of the accepted payload lengths, and allBytesCh is closed exactly when the true sum has reached the size. |
| CoreSpec.AcceptedIsTheSum | pkg/transfer/receiver/core.go:103-128 | The accepted byte count is the sum, over the run, of the lengths of exactly the payloads that were written. |
| CoreSpec.FirstTerminatorDecides | pkg/transfer/receiver/core.go:134-200 | Once done, the rest of any sequence of events changes neither result nor file; one cleanup; removed exactly when the result is non-nil and a path is set. |
| CoreSpec.NilMeansVerified | pkg/transfer/receiver/core.go:145-188 | When frames are handled one at a time a nil result means the file has the announced size and digest and is kept. |
| CoreSpec.HandleKeepsValid | pkg/transfer/receiver/core.go:56-200 | Any event, from an honest or a dishonest peer, keeps the core consistent. |
| CoreSpec.MetadataOutcome | pkg/transfer/receiver/core.go:57-81 | METADATA ends an unfinished transfer with the first of: version not 1, codec not 0 or 1, a second METADATA, a size from 2^63 on or a failing Truncate; otherwise the file is cut or zero-filled to its size. |
| CoreSpec.DataOutcome | pkg/transfer/receiver/core.go:103-128 | A frame ends it before METADATA, beyond the true end of the file, or when the write fails (with the prefix it left); otherwise exactly its bytes change, and allBytesCh closes when the true sum reaches the size. |
| CoreSpec.VerifyOutcome | pkg/transfer/receiver/core.go:147-188 | verifyAndClose waits while bytes are missing and the timer has not fired; otherwise it ends the transfer with the first of missing METADATA, time-out, too many bytes, failing sync, failing read, wrong digest, or with nil and the file kept. |
| CoreSpec.FailOutcome | pkg/transfer/receiver/core.go:134-143 | The first fail ends the transfer with its error, file closed and removed if it has a path; a later one changes nothing. |
| ReceiverCore.VerifyIntegrity | pkg/transfer/receiver/core.go:203-226 | For every legal behaviour of ReadAt: on a file of the announced size every byte is hashed once and in order and the verdict is exactly read failure, digest mismatch or success; a shorter file is always rejected. |
| ReceiverCore.TransferCore.HandleMetadata | pkg/transfer/receiver/core.go:57-81 | The object does what the specification says, state and error. |
| ReceiverCore.TransferCore.WriteChunk | pkg/transfer/receiver/core.go:103-128 | The object does what the specification says, and reports out of bounds exactly for writes whose true end exceeds the size. |
| ReceiverCore.TransferCore.Fail | pkg/transfer/receiver/core.go:134-143 | The first call decides result, cleanup and removal; later calls change nothing. |
| ReceiverCore.TransferCore.VerifyAndClose | pkg/transfer/receiver/core.go:147-188 | The object does what the specification says, reading the file back block by block. |
| SinglePc.SingleTransferIsExact | pkg/transfer/receiver/single.go:35-104 | What the sender puts on the wire, delivered in order to a fresh receiver and followed by closes, loop errors and the verification in any order, rebuilds the file exactly, with a nil result and the output kept. |
| SinglePc.AfterEofClosesAreHarmless | pkg/transfer/receiver/init.go:99-113 | Over any events that follow EOF, in any order, the transfer ends up as if no close and no loop error had happened, except that messages after a loop error are not read. |
| SinglePc.BeforeEofClosesAreFatal | pkg/transfer/receiver/init.go:99-113 | Before EOF either of them ends an unfinished transfer, with the error that belongs to it, and the file is removed if it has a path. |
| SinglePc.FaultyMessage | pkg/transfer/receiver/single.go:35-75 | Against a list of what is wrong with a message, written apart from the handler: a message at fault ends an unfinished transfer with exactly its fault, and the read loop goes on exactly after METADATA, DATA and EOF with nothing wrong. |
| SinglePc.GoodMessage | pkg/transfer/receiver/single.go:35-71 | METADATA with nothing wrong sizes the file and sets up the decoder, DATA changes exactly its bytes, EOF starts one verification. |
| SinglePc.AbortFails | pkg/transfer/receiver/single.go:73-75 | An ABORT delivered to an unfinished handler closes done with exactly its reason and removes the file if and only if it has a path. |
| SinglePc.FinishOutcome | pkg/transfer/receiver/core.go:147-188 | The verification that EOF started waits, or ends the transfer with the first thing wrong, the timer included, or with nil and the file kept. |
| SinglePc.PieceArrives | pkg/transfer/receiver/single.go:51-55 | Dispatching and handling the next piece extends the correctly written prefix of the file by exactly that piece. |
| SingleHandlers.SingleHandler.OnMetadata | pkg/transfer/receiver/single.go:35-49 | The handler object does what the specification says for METADATA. |
| SingleHandlers.SingleHandler.OnData | pkg/transfer/receiver/single.go:51-55 | The handler object does what the specification says for DATA. |
| SingleHandlers.SingleHandler.OnEOF | pkg/transfer/receiver/single.go:59-71 | EOF before METADATA and a second EOF fail; otherwise one verification is started. |
| SingleHandlers.SingleHandler.FailOnEarlyClose | pkg/transfer/receiver/single.go:93-104 | Fails only before EOF and before done. |
| SingleHandlers.SingleHandler.Receive | internal/session/channel.go:192-210 | One turn of the read loop: dispatch, handle, and stop on any error, as specified for every message and environment. |
| Frames.DispatchExact | internal/protocol/dispatch.go:9-57 | A message is dispatched as frame f exactly when it starts with the encoding of f, is that encoding for METADATA, DATA and ABORT, and its 32-bit length arithmetic does not wrap around. |
| Frames.RoundTrip | internal/protocol/control_decode.go:21-39 | Encoding then dispatching returns the frame, for exactly the frames whose description length plus five fits 32 bits. |
| Frames.ReEncode | internal/protocol/frame.go:74-138 | An accepted METADATA, DATA or ABORT message re-encodes to itself, any other to a prefix of itself. |
| Frames.DispatchErrors | internal/protocol/dispatch.go:9-57 | Exactly which message gets which error: an unknown type is named, a peer frame whose 32-bit end wraps around or leaves the message panics, anything else is too short or of the wrong length. |
| Frames.WireBytes | internal/protocol/frame_type.go:8-26 | The bytes on the wire as literals: types 1 to 7, version 1, codecs 0 and 1, big-endian lengths. |
| Frames.EncodeMetadata | internal/protocol/frame.go:59-69 | Fills a fresh buffer with the encoding of METADATA. |
| Frames.AppendData | internal/protocol/frame.go:105-119 | Whatever stale bytes the buffer holds, the first bytes become the encoding of DATA from index 0 on; the buffer is reused exactly when it is large enough. |
| Frames.EncodeAbort | internal/protocol/frame.go:146-153 | Fills a fresh buffer with the encoding of ABORT. |
| Frames.EncodePeerSDP | internal/protocol/control_encode.go:20-29 | Fills a fresh buffer with type, id, 32-bit length and description. |
| Channels.Channel.SendData | internal/session/channel.go:123-143 | One message with exactly the given fields leaves through the reused buffer; it stays sent when waiting for the buffer to drain is cancelled. |
| Channels.WaitedMeans | internal/session/channel.go:133-142 | Waiting for the buffer ends with an error exactly when the context is cancelled before the buffer has been seen drained, and the error is that of the context. |
| Channels.Channel.SendAll | internal/session/channel.go:92-143 | For any sequence of sends through the one buffer, dispatching what was sent calls the matching handlers with exactly the original fields. |
| Channels.Channel.OnFrames | internal/session/channel.go:147-214 | Only the first call on a channel reads; a channel closed before it opens ends with nil, a cancelled context or a failing detach with its error; then the loop of `Channels.ServedMeans` runs through one buffer. |
| Channels.ServedFaithfully | internal/session/channel.go:190-213 | Exactly the frames that fit the buffer reach the handler, unchanged and in order, up to the first that does not fit or is refused; after all of them the loop returns nil at the end of the channel, the error of a cancelled context, or the read error. |
| Channels.ServedMeans | internal/session/channel.go:190-213 | For any reads: the loop goes on while reads bring accepted frames or nothing, and the first that does not ends it, with the dispatch error, the refusal of the handler, nil at the end, the error of the context, or the read error. |
| Base45.AlphabetIsRfc | internal/utils/base45/base45.go:9 | The characters of the model are, digit by digit, those of the string in section 4.2 of RFC 9285, written out as a literal. |
| Base45.Encode | internal/utils/base45/base45.go:36-56 | The result encodes the input in the sense of section 4 of RFC 9285, with the preallocated length. |
| Base45.RfcVectorHello | internal/utils/base45/base45.go:36-56 | The only encoding of Hello!! is the literal text of section 4.3 of RFC 9285. |
| Base45.Decode | internal/utils/base45/base45.go:59-91 | Accepts with a value that the text encodes, of the preallocated length; rejects only texts that encode nothing, with the error of the first bad group: invalid length, a character outside the alphabet, or a value out of range. |
| Base45.DecodeChunk | internal/utils/base45/base45.go:95-105 | Accepts exactly digits and returns their base-45 value; otherwise names an offending character. |
| Base45.BuildIndex | internal/utils/base45/base45.go:14-25 | The table maps every alphabet byte to its value and every other byte to 0xff. |
| Base45.EncodesInjective | internal/utils/base45/base45.go:36-56 | No text encodes two byte strings. |
| Base45.EncodesFunctional | internal/utils/base45/base45.go:36-56 | No byte string has two encodings. |
| Base45.RoundTrip | internal/utils/base45/base45.go:36-91 | Decode(Encode(b)) = b for every byte string. |
| Base45.Canonical | internal/utils/base45/base45.go:58-91 | Every text Decode accepts re-encodes to itself, so it accepts exactly the image of Encode. |
| BandwidthRing.BwRing.Push | internal/stats/bandwidth.go:35-45 | The ring represents one more sample, dropping the oldest beyond fifty. |
| BandwidthRing.BwRing.OldestWithin | internal/stats/bandwidth.go:49-67 | Returns the first of the last fifty samples, in order, that is not before the cutoff. |
| BandwidthRing.FirstFromMeans | internal/stats/bandwidth.go:57-66 | That sample is in the window, and every earlier retained one is before the cutoff. |
| Statistics.Stats.CurrentBandwidth | internal/stats/bandwidth.go:104-143 | For sequential calls with a monotone clock the rate times the nanoseconds since the reference equals the bytes since then times 10^9, without underflow of the 64-bit subtraction; 0 exactly when there is no reference or no time has passed. |
| Statistics.Stats.SinceMeans | internal/stats/bandwidth.go:104-136 | The reference is the start while it is at most five seconds old, otherwise the oldest of the last fifty samples that is. |
| Statistics.MillionInASecond | internal/stats/bandwidth.go:137-142 | A million bytes in the first second read as a rate of one million. |
| Statistics.Stats.Sample | internal/stats/bandwidth.go:84-92 | The ring gets the running total at this moment. |
| Statistics.Stats.AddBytes | internal/stats/stats.go:53-55 | The counter is the sum of all counts modulo 2^64. |
| Statistics.Stats.Start | internal/stats/stats.go:59-71 | The fields represent the replayed history of calls, one Start longer. |
| Statistics.Stats.Pause | internal/stats/stats.go:75-85 | The fields represent the replayed history of calls, one Pause longer. |
| Statistics.Stats.Stop | internal/stats/stats.go:89-99 | The fields represent the replayed history of calls, one Stop longer. |
| Statistics.Stats.DurationExact | internal/stats/stats.go:111-121 | For every history: Duration is the running intervals, plus a pause nobody resumed, minus the time by which a pause open at the stop was resumed too late. |
| Statistics.Stats.DurationIsActiveTime | internal/stats/stats.go:101-121 | Duration is the sum of the running intervals if and only if those two corrections vanish. |
| Statistics.Stats.DurationWhenResumed | internal/stats/stats.go:101-121 | When every pause is resumed before Stop and before reading, Duration is the sum of the running intervals, never negative, monotone, and constant after Stop. |
| Statistics.OpenPauseIsCounted | internal/stats/stats.go:116-118 | A concrete history with an open pause: one unit of activity, Duration six. |
| Statistics.LateResumeGoesNegative | internal/stats/stats.go:67-70 | A concrete history in which resuming after Stop makes Duration negative. |
| ActiveTime.ReplayBounds | internal/stats/stats.go:59-99 | Replaying any monotone history gives non-negative activity and times in the past. |
| ActiveTime.ActiveIsInstants | internal/stats/stats.go:59-121 | The sum of the running intervals is the number of instants at which the last call that counted was a Start and nothing had stopped the clock. |

## Left out

- Shutdown.QuietVerificationIsExact: one direction only; a late write that puts back the same bytes is harmless, so there is no simple converse. `ShutdownRuns.LateWriteEscapesVerification` shows the condition is needed, and `TransferTheorems.ChannelsStaySilent` that an honest sender always meets it.
- CoreSpec.ArbitraryFrames: states the counter and allBytesCh for entry points run one at a time; between the counting and the closing of allBytesCh another routine may look, which the step system of the receiver has as separate actions.
- DeliveryTheorems.FileArrives: files below 2^63 bytes, since Truncate takes a signed size; with a larger announced size the transfer fails, as `CoreSpec.ArbitraryFrames` and the step system model.
- SenderFailures.HandshakeAbortArrives: files below 2^63 bytes, for the same reason; with a larger one METADATA itself fails the transfer. So does SenderFailures.PipelineAbortArrives.
- DeliveryTheorems.TransferEnds: in these runs a frame loop learns of the close of its channel after it has read the channel to its end, as a reliable, ordered channel gives it; a loop that is cut off earlier is a transport error, which the runs of the whole system in `TransferTheorems` have and these do not.
- handleMetadata: the compare-and-swap of METADATA and the Truncate are one action of the step system; a frame that another data peer writes between them meets the file at its old size there, and at its new size here. No data channel of an honest sender is open at that time (`TransferTheorems.OpenAfterMetadata`).
- RouterSpec.PeersClosedOnce: handlers run one at a time; a peer published after the end of the transfer is closed by its own negotiator or not at all, which the step system tells apart (`Shutdown.OpenSessionsExactly`).
- Channels.Channel.OnFrames: the mode with detached channels, which the program uses; the callback mode is left out. A read that is too short for a message is taken to bring none of it in `Channels.ServedFaithfully`; the loop itself is modelled for any reads.
- pion's ICE, DTLS and SCTP, and the order in which it tears connections down: a close or a transport error is a step that may come at any time.
- The sender's sessions: closePeers and cancelHandshake are not tracked; only the sessions of the receiver have a life cycle.
- Handshake: a peer's MakeOffer may return any description, and the receiver any answer; SDP text is opaque, and `EncodeSDP`/`DecodeSDP` beyond the base45 layer are library JSON.
- The step systems exchange frames as values; that every frame with a description below 2^32 - 5 bytes survives encoding and dispatch is `Frames.RoundTrip`.
- After a handler has failed the transfer, the read loop's own second call of fail is left out: the gate is taken by then.
- CreateConnection that fails leaves a negotiator without a session, so there is nothing to close.
- A decoder installed after cleanup has swept is never closed by the code; decoders have no life cycle of their own here.
- sync.Pool may drop buffers at any time and hands out any one it has; the model keeps all and hands out any.
- The measured rates are exact rationals, not floating point; formatting, progress emitters and String are not modelled.
- File system details beyond success and failure; the source file does not change between hashing and reading.
- Command line, QR codes, STUN parsing, configuration plumbing, and the role and SDP input/output helpers.
