# objtrsf in Dafny

objtrsf is a transport in the manner of QUIC: reliable streams over a lossy datagram layer. This
project models the part that has to be right for bytes to arrive (`trsf/`, and the replay tracker,
key phases and message channel of `objproto/`) and proves what it promises, over every run.

The shape is the same everywhere. State that a method updates in place is a class, and each method
is proved against a function on snapshots of that state (`View() == Spec(old(View()))`); the
theorems are about runs of those functions. Locks are atomic steps. Time is an integer in
nanoseconds, given by the caller. The network, the peer and the application are events chosen in
any order.

| file | what it models | main result |
|---|---|---|
| `SendStream.dfy`, `OrderingQueue.dfy`, `TriggerQueue.dfy` | `sendStream`, `flowController`, `OrderingQueue`, `recvStream`, the trigger queue | methods refine the snapshot functions |
| `StreamPair.dfy`, `PrefixSafety.dfy` | both ends of one stream, an adversarial network, and the removal of the receive entry | what is read is a prefix of what was appended |
| `Reliability.dfy` | the same pair | with harmless cuts, completed means arrived if and only if the entry was kept until everything had arrived |
| `Division.dfy`, `Continuation.dfy`, `Losses.dfy` | the same pair | ranges nest exactly when cuts are clean; the next division is safe exactly when it crosses nothing that is missing |
| `Removal.dfy`, `TwoBudgets.dfy` | the same pair, the second with the MTU tracker | exactly when a removal is safe; two families of runs that complete without some bytes |
| `Emission.dfy` | the same pair | every packet, read and window update is determined by what happened before, and as large as it can be |
| `FlowControl.dfy`, `Progress.dfy` | flow windows of the pair, and the loss of the sender's table entry | bounded; another byte can be sent exactly when the sender is in its table or has window left |
| `Duplex.dfy` | both directions of a bidirectional stream | a late request packet deadlocks the answer; the answer can go on exactly when there was none or its window suffices |
| `AckHandler.dfy`, `HandlerRuns.dfy` | `SentPacketHandler` | exact counters, one verdict each, no idle expiry |
| `LossDetection.dfy` | the same handler | losses, timer, backoff, RTT samples and reports told from the history of the run alone |
| `Connection.dfy`, `RunLoop.dfy`, `NoOrphan.dfy` | the run loop with all its send halves, its tables, its queues of cancels and window updates, and the handler | streams are orphaned exactly by eviction; no lost byte, no forgotten request |
| `Requeue.dfy`, `Turns.dfy` | the same loop | fresh work waits for no acknowledgment; queues serve in order of arrival, the most urgent goes first, and finished streams are collected |
| `Orphan.dfy` | the same loop | an evicted half stays forgotten, and a run in which it happens |
| `Composition.dfy`, `LoopLoss.dfy` | the run loop, a lossy network and the receiving ends of its streams | the first half of every number runs a stream pair, so that reliability holds of the whole loop; a run of the loop that loses bytes |
| `MtuTracker.dfy`, `MtuHistory.dfy` | `MTUTracker` | safety over runs, convergence, and exactly when the estimate moves and a probe is sent |
| `KeyPhase.dfy`, `ReplayTracker.dfy`, `MessageChannel.dfy` | key phases, receive nonces, message order | exactly what opens and when keys change; a set of numbers; sequence order |
| `PacketNumTracker.dfy`, `AckWire.dfy`, `Varint.dfy`, `StreamWire.dfy` | ACK generation and the wire formats | sound ACKs, round trips, packets that fit |
| `Rtt.dfy`, `Pacer.dfy`, `NewReno.dfy` | congestion control | how fast SRTT follows, an exact pacing timer with bounded bursts, how the window moves |

Four claims one might expect are false of the code, and the project says exactly how.

* **A second division can lose bytes.** `triggerPacket` may divide a range that was divided before at
  another budget (trsf/send_stream.go:321-324). Its pieces then cross, the receiver refuses a
  crossing piece as an overlap, and yet the piece is acknowledged. `DividingTwiceLosesBytes` gives
  such a run for every stream and any two budgets that divide it, and `TrackedBudgetsLoseBytes` one
  whose budgets an MTU tracker produces, falling once, to its base size. `LoopLosesBytes` is a run of
  the whole loop in which probe timeouts bring the two divisions. A cut is harmless when no
  undivided range that misses part of the divided one reaches across it. Over all continuations, a
  division is safe if and only if it crosses no undivided range that is still missing
  (`DivisionIsSafeExactly`). All cuts are harmless in particular when ranges are divided only while
  they are in `sentRanges`, or when the MTU never falls.
* **Removing the receive entry can lose bytes.** The entry goes one minute after an EOF frame arrived,
  although earlier bytes may be missing (trsf/conn.go:519-526, 604-606). A later retransmission is
  acknowledged and does not reach the reader. A completed stream has arrived if and only if the entry
  was never removed, or everything was there when it was (`CompletedArrivesExactly`); a removal is
  safe for all continuations if and only if everything is there (`RemovalIsSafeExactly`); and
  `LateRetransmissionIsLost` is the run, for any two halves of a stream, in which nothing is divided
  and the first half never arrives. What is read stays a prefix of what was appended in every run.
* **A late packet can replace a send half.** When a data frame of a bidirectional stream that the peer
  opened arrives after the stream's receive entry was removed, `getRecvStream` makes both halves anew
  and overwrites `sendStreams[id]` (trsf/conn.go:467-507), although the application still writes on
  the old send half. Window updates and cancels are looked up by number, reach the new half, and are
  acknowledged. `LateRequestDeadlocksAnswer` is the run, for every window and every longer answer: a
  second copy of the only request packet comes late, and the answer can never send another byte.
  Flow control is free of deadlock if and only if the sender is in the table or needs no further limit
  (`FlowNeverDeadlocks`; `ProgressIsPossibleExactly` and `AnswerProgressesExactly` over all
  continuations). `congestionBlocked` is keyed by number too, so that parking the new half can evict
  the old one. Every half with work is placed throughout a run if and only if nothing was evicted
  (`OrphansExactlyByEviction`), and `SecondHalfOrphansFirst` is a run in which a half is forgotten
  for good. What the new half sends reaches the reader of the old one (`SecondHalfIsReadInstead`).
* **Acknowledgments are sound and not complete.** `InsertUnacked` drops a number more than one past
  the last range (trsf/pn_track.go:59-93); its contract says exactly when, and `GapLeavesNoTrace`
  shows it. `TransferACK` refuses gaps of one and never sets `Len`, so that the encoder emits an ACK
  if and only if it names one range.

Many theorems are told from history: functions on the events of a run (`LossDetections.History`,
`MtuHistories.History`, `KeyPhases.Link.advances`, `NewRenos.LastHalving`) say what an observer has
seen, and the theorem says what the code does in terms of that, not in terms of its own fields. One
of them shows a limit of the window: past slow start an acknowledgment enlarges it if and only if the
square of its size is at least the window, because the program divides integers.

The bounds on SRTT are for positive samples, as the program itself says that a sample of zero is not
a measurement; `UnresolvedSampleBreaksTheFloor` shows that they need this.

Hypotheses of the theorems that come from outside the modelled code: the path MTU is at least 60
bytes in the run-loop theorems (every header then fits), stream numbers and window limits are below
2^62, packets have the shapes that trsf/conn.go builds, packet numbers are issued in order, and no
event of an MTU tracker happens at time 0, which stands for the unset time. A
stream pair has one sender and one reader: the theorems about pairs hold as long as the peer receives
no data of a later send half of the same number, which the theorems about the whole loop say.

## Model

| member | source | states |
|---|---|---|
| `Reliability.CompletedArrivesExactly` | trsf/conn.go:515-526 | in every run of harmless cuts, for any loss, duplication, reordering and MTU changes: when Completed holds, every sent byte and the EOF are at the receiver if and only if its entry was not removed, or they all were at the receiver when it was |
| `Reliability.EndToEndReliability` | trsf/send_stream.go:278-325 | in every run of harmless cuts whose receive entry was not removed before everything had arrived, when Completed holds one large enough read returns all that was sent, and all that was appended unless the stream was cancelled |
| `Reliability.RunIsReliable` | trsf/ordering.go:34-87 | every run of harmless cuts keeps: while the receive entry is in place, every sent byte and the EOF are at the receiver or in a tracked range without fragments, and a delivered range without fragments is covered even when Push refused it |
| `Reliability.DeliveryCovers` | trsf/conn.go:573-592 | delivering a range without fragments while the receive entry is in place covers all its bytes and its EOF, whether Push stores it or refuses it as duplicate, old or overlapping |
| `Division.RangesNestExactlyWithCleanCuts` | trsf/send_stream.go:327-361 | the ranges ever made in a run are pairwise nested or disjoint if and only if every division was at a clean cut |
| `Division.CleanCutsAreReliable` | trsf/send_stream.go:151-155 | if every division was at a clean cut, a completed stream has arrived if and only if its receive entry was not removed, or everything had arrived by then |
| `Division.TrackedDivisionsAreReliable` | trsf/send_stream.go:309-325 | if no range is divided after it left sentRanges, a completed stream has arrived if and only if its receive entry was not removed, or everything had arrived by then, for any loss, duplication, reordering and MTU changes |
| `Division.OneDivisionNests` | trsf/send_stream.go:278-305 | if no range is divided a second time the ranges nest, and no tracked range was divided before |
| `Division.CrossingPairLosesBytes` | trsf/ordering.go:34-87 | two ranges that cross, in either order of arrival at an idle receiver: the second is refused and a byte only it carries stays missing |
| `Losses.LossIsPossibleExactly` | trsf/ordering.go:34-87 | once the EOF is out, a byte can still be lost for good without another division if and only if it is missing and every tracked range that holds it runs into something the receiver has or can be given first |
| `Losses.DivisionIsSafeExactly` | trsf/send_stream.go:335-361 | after any run of harmless cuts, once the EOF is out and with the entry in place, the next division is safe (every way to complete without another division delivers everything) if and only if it crosses no undivided range of which the receiver has nothing, on the side of a fragment that can still be stored |
| `Removals.RemovalIsSafeExactly` | trsf/conn.go:515-526 | once the EOF is out, after any run: every way to complete after the removal has everything at the receiver if and only if everything is there at the removal |
| `Removals.LateRetransmissionIsLost` | trsf/conn.go:573-606 | for any two non-empty halves there is a run without any division in which the second half with the EOF arrives, the entry is removed, the first half arrives and is acknowledged, and the stream completes with none of its bytes at the receiver |
| `TwoBudgets.DividingTwiceLosesBytes` | trsf/send_stream.go:321-324 | for every stream that fits a first budget and every base and larger raised budget that divide it, there is a run with those budgets that completes, entry in place, without the bytes between the two cuts |
| `TwoBudgets.TrackedBudgetsLoseBytes` | trsf/mtu/plpmtud.go:325-433 | for every base of at least 60, every maximum at least 8 above it and every stream whose size lies between the raised and the last estimate there is such a run whose budgets are the estimates of one run of the MTU tracker, which rises, falls once to the base and rises twice |
| `TwoBudgets.SizesExistExactly` | trsf/mtu/plpmtud.go:325-433 | such a size exists if and only if the largest one that fits the last estimate for certain does not fit the raised one |
| `TwoBudgets.WideBoundsLeaveRoom` | trsf/mtu/plpmtud.go:325-433 | such a size exists, and is given, when the maximum is at least 200 above the base |
| `PrefixSafety.PrefixSafety` | trsf/ordering.go:97-132 | in every run the bytes read are a prefix of the bytes appended, the queue is sorted, free of overlap and at or above nextOffset, and EOF is reported only at the end offset of the EOF range |
| `PrefixSafety.RunIsSafe` | trsf/send_stream.go:220-246 | every run keeps each range equal to the piece of the appended bytes at its offset, at most one EOF mark, and the input buffer equal to what has no offset yet |
| `Emissions.PacketsAreFull` | trsf/send_stream.go:327-420 | over every run, at a budget of at least 30: a queued range goes first, the oldest of them, whole if it fits and otherwise cut so that its head fills the budget and its rest goes to the end of the queue; if none is queued the next unsent bytes go, as many as budget and window admit, with the EOF exactly when it was signalled and they are the last, or the stream was cancelled |
| `Emissions.WriterWaitsExactly` | trsf/send_stream.go:163-218 | over every run bytes are refused exactly when the stream was closed or cancelled, and have to wait exactly while a mebibyte of those appended is unsent |
| `Emissions.FlagsExactly` | trsf/send_stream.go:84-143 | over every run the EOF is signalled exactly after a Close or an accepted append with EOF, the stream is cancelled exactly after a cancel that arrived while it was in its table, and the limit is the largest that so arrived |
| `Emissions.MarkerOnce` | trsf/send_stream.go:384-392 | over every run at most one range without bytes and without EOF is made, only on a stream that asked for the open marker, and the marker is pending exactly until then |
| `Emissions.ShortReadTakesAll` | trsf/ordering.go:97-132 | over every run a read returns at most what was asked for, and when it returns less nothing queued, byte or EOF, is at the read position |
| `Emissions.UpdateIsQueuedExactly` | trsf/recv_stream.go:119-148 | over every run a read asks for a window update if and only if it returned bytes and the initial window plus the bytes read lies at least half an initial window above the window last acknowledged, and an update sent carries that sum |
| `StreamPairs.TakeKeepsOrder` | trsf/ordering.go:97-132 | a read returns the next bytes of the sent string, keeps the queue sorted and disjoint, and ends with EOF only at the end |
| `StreamPairs.TakeKeepsCover` | trsf/ordering.go:97-132 | a read changes neither which bytes are read or queued nor whether the EOF is |
| `StreamPairs.PushKeepsOrder` | trsf/ordering.go:34-87 | inserting a piece keeps the queue sorted, disjoint and within the sent string |
| `StreamPairs.PushCovers` | trsf/ordering.go:34-87 | an accepted piece adds exactly its own bytes and EOF to what the receiver has |
| `FlowControl.SentStaysWithinWindow` | trsf/flow.go:10-24 | the sent offset is never more than the initial window past the read offset |
| `FlowControl.FlowNeverDeadlocks` | trsf/recv_stream.go:97-183 | on a live stream whose sent bytes are all read, for any order of updates and of their ACKs: the sender has window left, or an update that raises its limit is queued or outstanding and can reach it, if and only if it is in its connection's table or has window left |
| `Progresses.ProgressIsPossibleExactly` | trsf/conn.go:617-641 | after any run that left a live stream with everything sent read and more to send, some continuation sends another byte if and only if the sender is in its connection's table or has window left |
| `Progresses.StarvedForever` | trsf/conn.go:617-628 | a sender without window that left its connection's table sends no new byte in any continuation |
| `Progresses.UnlistedDeadlocks` | trsf/send_stream.go:363-420 | for every window, every budget of at least 30 and every buffer longer than the window, a sender that left its table uses its window up, is read and acknowledged, has its window update acknowledged, and then has nothing queued or outstanding |
| `Duplexes.AnswerProgressesExactly` | trsf/conn.go:467-507 | after any run of both directions that left the answer alive, read, and with more to send, some continuation sends another byte of it if and only if no request packet arrived after the removal of the request's receive entry, or the answer has window left |
| `Duplexes.ListedExactly` | trsf/conn.go:467-507 | until its EOF is out, the answering half is in its table if and only if no request packet arrived after the removal of the request's receive entry |
| `Duplexes.DirectionsArePairs` | trsf/conn.go:467-507 | in every run of both directions each of them runs a stream pair |
| `Duplexes.LateRequestDeadlocksAnswer` | trsf/conn.go:467-507 | for every window, request and longer answer there is a run in which both copies of the only request packet arrive, the request is read, and the answer then deadlocks for good with everything acknowledged |
| `Duplexes.SecondHalfIsReadInstead` | trsf/conn.go:487-489 | whatever was written on the first half, if nothing of it has arrived then what the second half sends is what the peer reads |
| `SendStreams.SendStream.AppendData` | trsf/send_stream.go:163-218 | data is appended and the stream pushed exactly when it is open and below its buffer limit; otherwise nothing changes and the outcome says why |
| `SendStreams.SendStream.ReadChunk` | trsf/send_stream.go:220-246 | the loop takes the first bytes of the joined buffer up to the budget and leaves the rest; EOF is reported for a cancelled stream, or when the buffer was emptied and EOF signalled |
| `SendStreams.RestDropsBytes` | trsf/send_stream.go:220-246 | the chunks left after n bytes join to the joined buffer without its first n bytes |
| `SendStreams.HeaderSize` | trsf/send_stream.go:251-263 | a header takes 4 to 28 bytes, for any id, offset and length |
| `SendStreams.SendStream.SplitSentRange` | trsf/send_stream.go:278-305 | the range becomes two new ranges that divide its bytes at the budget, or at its end when the budget exceeds it, EOF on the second, in its place in sentRanges |
| `SendStreams.SendStream.ReplaceSentRange` | trsf/send_stream.go:309-325 | the fragments take the place of the range, or go to the end when it is no longer tracked |
| `SendStreams.SendStream.TriggerPacket` | trsf/send_stream.go:327-420 | the new stream state, the range handed over and the push on the trigger are those of the snapshot function about which the run theorems speak |
| `SendStreams.SendStream.RequeueIfMore` | trsf/send_stream.go:438-442 | the stream is pushed exactly when sendable bytes or an unsent EOF remain |
| `SendStreams.SendStream.OnACK` | trsf/send_stream.go:444-477 | exactly the acknowledged range leaves sentRanges, on the fast path and in the filter, and the stream is pushed |
| `SendStreams.SendStream.UpdateFlowWindow` | trsf/send_stream.go:84-91 | the window only grows, and the stream is pushed exactly when it does |
| `SendStreams.SendStream.Close` | trsf/send_stream.go:131-143 | EOF is signalled and the stream pushed |
| `SendStreams.SendStream.OnCancel` | trsf/send_stream.go:93-96 | the cancel is recorded and the stream pushed |
| `SendStreams.FlowController.UpdateWindow` | trsf/flow.go:18-24 | the limit becomes the larger of the two, and the answer says whether it grew |
| `TriggerQueues.TriggerQueue.Push` | trsf/queue.go:102-117 | an item already queued is not queued twice; order is kept |
| `TriggerQueues.TriggerQueue.Pop` | trsf/queue.go:130-144 | the oldest item leaves the queue and its set, or none |
| `OrderingQueues.OrderingQueue.Push` | trsf/ordering.go:34-87 | result and new queue for each case: empty, old or duplicate (ignored), overlapping a neighbour, past the EOF, inserted in place |
| `OrderingQueues.OrderingQueue.ReadDirect` | trsf/ordering.go:97-132 | the loop returns the longest run of bytes up to n from nextOffset and leaves the rest, splitting the last element |
| `OrderingQueues.RecvStream.ProcessChunk` | trsf/recv_stream.go:72-89 | a chunk after EOF is refused; any other is offered to the queue, and the answer says whether it was stored or ignored |
| `OrderingQueues.RecvStream.ReadDirect` | trsf/recv_stream.go:119-148 | a read moves the window by what was read and asks for an update exactly when it returned bytes and at least half of the initial window is unacknowledged |
| `OrderingQueues.RecvStream.OnWindowAck` | trsf/recv_stream.go:97-101 | the acknowledged window is recorded, whichever order ACKs come in |
| `StreamWire.StreamPacketRoundTrip` | trsf/wire/stream.go:612-639 | a range is encoded if and only if id and offset are below 2^62, and decoding gives back id, offset, data and EOF |
| `StreamWire.EmittedPacketFits` | trsf/send_stream.go:366-420 | every range that triggerPacket hands over encodes to at most the budget, on the fresh, retransmit and split paths |
| `StreamWire.DrainSplitsExactly` | trsf/send_stream.go:327-361 | at a budget of at least 30, repeated calls of triggerPacket hand a queued range over in finitely many contiguous non-empty pieces that join to it, EOF on the last, and the flow window is not charged again |
| `Varints.VarintLen` | trsf/wire/stream.go:335-349 | at most 8 bytes, and 0 exactly for values of 2^62 and more |
| `Varints.EncodeVarint` | trsf/wire/varint.go:3-11 | succeeds exactly below 2^62 and keeps the value |
| `Varints.VarintRoundTrip` | trsf/wire/stream.go:272-315 | decoding what was appended gives back the varint and leaves what follows |
| `Varints.ValueRoundTrip` | trsf/wire/stream.go:180-208 | the bytes of an encoded value decode to that value |
| `AckWire.TransferACK` | trsf/wire.go:78-138 | succeeds if and only if the ranges are a non-empty ascending list of non-empty ranges with gaps of at least two, ending below 2^62 |
| `AckWire.DecodeRanges` | trsf/wire.go:11-28 | the loop computes, modulo 2^64, the ranges that the wire gaps and lengths describe |
| `AckWire.AckRoundTrip` | trsf/wire.go:32-73 | parsing what TransferACK built gives back the ranges, and the delay in whole microseconds |
| `AckWire.AckBytesRoundTrip` | trsf/wire/stream.go:1022-1061 | decoding inverts encoding for every ACK packet that the encoder accepts |
| `AckWire.EncodeAck` | trsf/conn.go:838-856 | bytes come out if and only if the list is one encodable range, and they parse to it |
| `PacketNumTrackers.PacketNumTracker.InsertUnacked` | trsf/pn_track.go:48-94 | the ranges stay sorted with gaps and inside what was received; the number is added exactly when it is at most one past the last range, and otherwise nothing changes |
| `PacketNumTrackers.PacketNumTracker.GenerateACK` | trsf/pn_track.go:101-112 | the ranges are handed over and cleared, with the time since the first arrival of the largest number that arrived since the last call, or 0 if none did |
| `PacketNumTrackers.PacketNumTracker.BuildAck` | trsf/conn.go:838-856 | an emitted ACK decodes to the recorded ranges and never names a number that was not received |
| `PacketNumTrackers.GapLeavesNoTrace` | trsf/pn_track.go:59-93 | of the numbers 1 and 3 received in this order, 3 is not recorded |
| `HandlerRuns.CountersStayExact` | trsf/ack_handler.go:208-272 | after every run bytesInFlight, mtuProbesOutstanding and exemptOutstanding equal their definitions over sentRanges, the timer is armed exactly when something is outstanding, and Spurious plus remembered losses never exceeds Packets |
| `HandlerRuns.BytesAreConserved` | trsf/ack_handler.go:208-218 | bytes reported sent equal bytes reported acknowledged plus bytes reported lost plus bytes in flight |
| `HandlerRuns.OneVerdictEach` | trsf/ack_handler.go:485-533 | a packet that nothing re-sends has had exactly one of OnACK and OnLost, once, when it is no longer outstanding, and none before |
| `HandlerRuns.EveryExpiryProgresses` | trsf/ack_handler.go:535-586 | a loss-time expiry retires a packet, any other retires one or re-sends one, and the empty-flight error is unreachable |
| `HandlerRuns.AckRemovesExactlyTheNamed` | trsf/ack_handler.go:274-348 | for sorted ranges the filter removes exactly the packets inside them, loses none, and its consistency check cannot fail |
| `HandlerRuns.AckRetiresExactlyTheNamed` | trsf/ack_handler.go:591-618 | an accepted ACK that a peer can encode acknowledges exactly the outstanding packets it names |
| `HandlerRuns.LossExpiryRetires` | trsf/ack_handler.go:352-439 | the packet for which the loss time was set is declared lost when that time has passed |
| `HandlerRuns.ProbeExpiryProgresses` | trsf/ack_handler.go:555-585 | a probe timeout retires or re-sends, what it re-sends stays outstanding and is retransmittable, and without a re-send nothing stays outstanding |
| `HandlerRuns.TimerArms` | trsf/ack_handler.go:441-463 | with exact counters and the shapes of conn.go the timer is armed exactly when something is outstanding, and is the loss time if there is one |
| `LossDetections.LargestAckedIsLargestNamed` | trsf/ack_handler.go:591-618 | after every run of encodable ACKs largestAcked is the largest number named by an ACK that was accepted and acknowledged something, and 0 if there was none |
| `LossDetections.AckIsRefusedExactly` | trsf/ack_handler.go:591-600 | over every run an ACK is refused, and then changes nothing, if and only if it claims a number above 0 and above every number sent |
| `LossDetections.AckDeclaresExactly` | trsf/ack_handler.go:352-439 | after any run an ACK that counts declares lost exactly the outstanding packets that it does not name, that lie at or below a number claimed by it or by an earlier such ACK, and that are at least 9/8 of the larger of last and smoothed RTT, and a millisecond, old |
| `LossDetections.ExpiryDeclaresExactly` | trsf/ack_handler.go:535-554 | after any run an expiry of the loss time declares lost exactly the outstanding packets at or below a claimed number that are that old |
| `LossDetections.NothingLateAfterAck` | trsf/ack_handler.go:352-439 | after every run of encodable ACKs, when a packet numbered at or below an acknowledged one is outstanding a loss time is set, and right after an ACK that counts no such packet is a loss delay old |
| `LossDetections.LossTimeExactly` | trsf/ack_handler.go:352-439 | after every run the loss time is set exactly when an outstanding packet lies at or below a claimed number, and is the sending time of the first of these plus the loss delay |
| `LossDetections.TimerExactly` | trsf/ack_handler.go:441-463 | after every run, when something is outstanding and no loss time is set, the timer is the time of the call that last set it plus SRTT plus the larger of 4 RTTVAR and 1 ns plus 25 ms times 2^k, k the expiries that re-sent a packet since the last ACK that acknowledged something; and it is armed exactly when something is outstanding |
| `LossDetections.ProbeResendsOldest` | trsf/ack_handler.go:555-585 | after any run without a loss time an expiry gives up exactly the packets that nothing re-sends and re-sends the one of the others with the least number, if there is one |
| `LossDetections.RttIsFold` | trsf/ack_handler.go:601-612 | after every run of encodable ACKs the RTT estimate is the fold of one sample for each ACK that acknowledged the largest number it names: the time since that packet was sent, and the ACK's delay |
| `LossDetections.ReportsExactly` | trsf/ack_handler.go:321-348 | every call reports the acknowledged packets, if any, and the lost ones exactly when one of them is not exempt, each with the bytes of those that are not: a lost MTU probe is no congestion |
| `LossDetections.FlightExactly` | trsf/ack_handler.go:208-218 | after every run bytesInFlight is the sum of the sizes of the outstanding packets that are not exempt |
| `LossDetections.LossStatsExact` | trsf/ack_handler.go:81-116 | over every run Packets counts the evidence losses and Events the reports of loss; as long as there were at most 256 losses Spurious counts those that a later accepted ACK named and declaredLost, which never lists more than 256, lists the others in order |
| `AckHandlers.ScanIsMembership` | trsf/ack_handler.go:290-310 | the scan that stops early finds nothing but named numbers, and on sorted ranges all of them |
| `AckHandlers.PassDivides` | trsf/ack_handler.go:321-346 | every pass divides every counted total between the packets that leave and those that stay |
| `AckHandlers.SentPacketHandler.RecordSent` | trsf/ack_handler.go:253-272 | the packet is appended, each counter it belongs to moves, and the timer is set |
| `AckHandlers.SentPacketHandler.DetectAck` | trsf/ack_handler.go:274-348 | the loops keep the packets that are not named, take the others out of all counters, report their congestion bytes and never fail |
| `AckHandlers.SentPacketHandler.DetectLostPackets` | trsf/ack_handler.go:352-439 | the late packets at or below largestAcked leave the list and the counters, the next loss time is that of the first one that stays, and the loss statistics and the congestion report follow |
| `AckHandlers.SentPacketHandler.DeclareLostUnretransmittable` | trsf/ack_handler.go:485-533 | every packet that nothing re-sends leaves the list and the counters, with its loss statistics and congestion report |
| `AckHandlers.SentPacketHandler.SetLossDetectionTimer` | trsf/ack_handler.go:441-463 | the timer becomes the loss time, nothing, or now plus the probe timeout |
| `AckHandlers.SentPacketHandler.NoteSpuriousLoss` | trsf/ack_handler.go:94-116 | the remembered losses that the ACK names are forgotten and counted |
| `AckHandlers.SentPacketHandler.RememberLost` | trsf/ack_handler.go:81-87 | the last 256 evidence losses are remembered in order |
| `AckHandlers.SentPacketHandler.Timeout` | trsf/ack_handler.go:535-586 | new state, retired packets, re-sent packet and error for both modes of the timer |
| `AckHandlers.SentPacketHandler.Receive` | trsf/ack_handler.go:591-618 | new state, acknowledged and lost packets and error for every ACK, including one above largestSent and one that names nothing outstanding |
| `NoOrphans.NoOrphanedStream` | trsf/conn.go:866-1069 | at the top of every pass of every run a half with work is on sendTrigger, in congestionBlocked, or owns an outstanding packet, or was evicted by some step of the run; and while CanSend is false the loss timer is armed |
| `NoOrphans.OrphansExactlyByEviction` | trsf/conn.go:903-908 | every half with work is so placed at the top of every pass of a run if and only if no step of it parks a half over another one of its number that has work, is not on sendTrigger and owns no outstanding packet |
| `NoOrphans.EvictionNeedsTwoHalves` | trsf/conn.go:467-507 | an eviction needs two halves of one number |
| `Requeues.PushIsExact` | trsf/send_stream.go:327-442 | for every sender and budget: a call that hands a range over pushes the stream if and only if the window admits buffered chunks or a signalled EOF is not out; a call that hands none over does not; and at a budget of at least 30 no stream that can send something new is left unpushed |
| `Requeues.FreshWorkIsQueued` | trsf/conn.go:866-1069 | at the top of every pass of every run a half with window left, buffered bytes or a signalled EOF, and an EOF that is not out, is on sendTrigger or in congestionBlocked, whatever it has outstanding, or some step parked another half of its number over it |
| `Requeues.QueuedExactlyWithoutDisplacement` | trsf/conn.go:897-908 | every such half is so queued at the top of every pass of a run if and only if no step of it parks a half over another one of its number that is such a half and not on sendTrigger |
| `Turns.StepIsInOrder` | trsf/queue.go:102-144 | every step of the loop adds to the end of its three queues and takes from their front, one of each in a pass that pops |
| `Turns.ServedInTurn` | trsf/conn.go:866-872 | in every run from any state, a stream, cancel or window update with n ahead of it in its queue is first in it at the n+1st pass that pops, whatever is queued or put back in between |
| `Turns.PopTakesFirst` | trsf/conn.go:866-872 | a pass holds the first of each queue; a stream whose EOF was sent and all of whose ranges were acknowledged is dropped, and its number leaves the table |
| `Turns.FinishedIsCollected` | trsf/conn.go:866-872 | after every run such a stream in the table is on sendTrigger, so that its turn comes and its number leaves the table |
| `Turns.UrgentGoesFirst` | trsf/conn.go:873-1011 | without permission to send nothing is sent, the requests go back and the stream is parked; otherwise exactly one packet goes for the cancel, or else the window update, and what was popped with it goes back, or else the stream hands over what triggerPacket yields; for the states of runs |
| `Turns.ParkedReturnExactly` | trsf/conn.go:752-757 | at the top of a pass all parked streams return to the end of the trigger if the window is open, and none otherwise |
| `Turns.PacketsAreAccounted` | trsf/conn.go:1012-1035 | after every run each outstanding packet is counted as its payload plus 30 bytes, and 4 more for stream and control packets; all but datagrams and MTU probes are sent again when lost and need a window, and all but MTU probes are evidence about the path |
| `Orphans.OrphanStays` | trsf/conn.go:866-1069 | a half with work to which no queue, table, parking place or outstanding packet refers stays so, unsent, in every continuation in which the application leaves it alone |
| `Orphans.SecondHalfOrphansFirst` | trsf/conn.go:903-908 | for either side, every bidirectional number of the peer, every congestion window and every datagram size there is a run in which a half with data written on it becomes such an orphan for good |
| `NoOrphans.NoLostByte` | trsf/conn.go:1008-1035 | in every state of every run a sent byte that was not acknowledged lies in a tracked range that is queued, about to be recorded, or carried by an outstanding packet with the timer armed |
| `NoOrphans.EverySentByteIsRecoverable` | trsf/conn.go:752-757 | between passes the half of such a byte is on sendTrigger or parked, or owns an outstanding packet with the timer armed, or was evicted by some step of the run |
| `NoOrphans.TriggerKeeps` | trsf/send_stream.go:327-420 | at an MTU of at least 60 triggerPacket hands a range over or leaves a stream without work, and every tracked range stays attended |
| `NoOrphans.CallbacksKeep` | trsf/ack_handler.go:352-439 | the callbacks of one handler call leave every stream with work placed and every tracked range attended, although their packets are gone |
| `NoOrphans.NoForgottenRequest` | trsf/conn.go:885-1007 | in every state of every run a receive half that asked for a window update or a cancel, whose EOF was not read and whose newest request has no acknowledged packet, is on its queue, in the hands of the loop, or has a packet outstanding that was numbered since that request, with the timer armed |
| `Compositions.StreamsArePairs` | trsf/conn.go:560-645 | in every run of the loop with a lossy network and a peer that acknowledges only what it received, the first send half of every number is the sending end of a run of a stream pair, which knows whether the half is in the table, until the peer receives data of a later half of the number; that an acknowledged range was delivered is derived from packet numbers |
| `Compositions.LoopNeverDeadlocks` | trsf/conn.go:617-641 | in every such run, such a half, live and read, may advance if and only if the connection's table has it or it has window left |
| `Compositions.LoopIsReliable` | trsf/conn.go:866-1057 | in every such run, of every such half: what the peer read is a prefix of what was appended, and when the loop finds the half completed and its cuts were harmless, everything has arrived if and only if the peer had not removed its entry before that |
| `LoopLosses.LoopLosesBytes` | trsf/ack_handler.go:555-585 | for every stream and every three budgets of which the first holds it and the others divide it, with both tails fitting the larger of these, there is such a run, driven by probe timeouts, in which the loop finds the half completed and the bytes between the cuts are missing |
| `Compositions.RisingMtuIsHarmless` | trsf/conn.go:1008-1011 | in every such run in which no pass uses a smaller MTU than an earlier one, nothing is divided and all cuts are harmless |
| `Compositions.EveryByteIsKept` | trsf/conn.go:866-1057 | in every state of every such run in which the cuts of such a half were harmless, while the peer has its entry, a sent byte is at the peer, or in a tracked range that is queued, about to be recorded, or carried by an outstanding packet with the timer armed |
| `RunLoops.RunLoop.GetRecvStream` | trsf/conn.go:467-507 | a data frame for a number of the peer without a receive half makes one, and for a bidirectional number a send half that takes the table entry |
| `RunLoops.RunLoop.HandleWindowFrame` | trsf/conn.go:617-628 | the limit reaches the half that the table has under the number, or none, and pushes it exactly when it grows |
| `RunLoops.RunLoop.HandleCancelFrame` | trsf/conn.go:629-640 | the cancel reaches the half that the table has under the number, or none |
| `RunLoops.RunLoop.DrainBlocked` | trsf/conn.go:752-757 | every parked half goes to the trigger, in any order, and none stays parked |
| `RunLoops.RunLoop.HandleAck` | trsf/conn.go:607-616 | an ACK updates the handler and runs the callbacks of the packets acknowledged and lost, in that order, for data, cancels and window updates |
| `RunLoops.RunLoop.HandleTimers` | trsf/conn.go:823-837 | OnTimeout runs exactly when the timer has passed, and a re-send marks the pass as a probe |
| `RunLoops.RunLoop.Pop` | trsf/conn.go:866-872 | the oldest window update, cancel and half are taken; a completed half is dropped with the table entry of its number |
| `RunLoops.RunLoop.Choice` | trsf/conn.go:873-1011 | without permission to send the stream is parked and the cancel and the update of unfinished streams go back; else the cancel, the window update or the stream takes the slot, and what it displaces is pushed back unless a number does not encode |
| `RunLoops.RunLoop.RecordBuilt` | trsf/conn.go:1012-1035 | the range becomes an outstanding packet with its overhead counted |
| `RunLoops.RunLoop.TrySendDatagram` | trsf/conn.go:1242-1286 | a datagram is sent if it is exempt or the window admits it, and is dropped otherwise |
| `MtuTrackers.MtuStaysInRange` | trsf/mtu/plpmtud.go:217-399 | in every run, late and repeated verdicts included, min <= mtu <= max, low = mtu + 1, and fallbacks never outnumber raises |
| `MtuTrackers.NoFallbackNearACKs` | trsf/mtu/plpmtud.go:134-191 | no data loss lowers the estimate if every large loss falls within blackHoleFloor of a large ACK |
| `MtuTrackers.FallsOnlyToBase` | trsf/mtu/plpmtud.go:414-433 | whatever step lowers the estimate sets it to the base size and counts a fallback |
| `MtuHistories.LossLowersExactly` | trsf/mtu/plpmtud.go:165-191 | over every run a lost packet lowers the estimate if and only if packet and estimate lie above the base, a large packet was acknowledged since the estimate last fell but longer ago than ten RTTs, at least one and at most thirty seconds, and the peer gave a sign of life within that time; it then falls to the base |
| `MtuHistories.VerdictsMoveExactly` | trsf/mtu/plpmtud.go:325-399 | over every run a lost probe lowers the estimate if and only if it re-proves the estimate, which is above the base, and two such were lost since one was acknowledged, and at the base that is counted instead; an acknowledged one raises it to the size of the last probe since the last fall, if larger, unless it re-proves the estimate |
| `MtuHistories.ProbesExactly` | trsf/mtu/plpmtud.go:217-262 | over every run, with no probe out, one is sent if and only if the search range is not empty, or the estimate was proven more than a minute ago, or it is below the limit and the range ran empty longer ago than the period doubled for each reopening since the last raise, six times at most; it re-proves the estimate exactly in the second case |
| `MtuTrackers.EstimateFallsAndRises` | trsf/mtu/plpmtud.go:165-399 | for every base and maximum at least 8 apart there is a run in which the estimate rises, falls to the base once, and rises twice to values below the first |
| `MtuTrackers.DeadlineIssues` | trsf/mtu/plpmtud.go:272-305 | at any later time Probe issues if and only if the announced deadline has passed, and never when none is announced; while searching the deadline is a tenth of a second away |
| `MtuTrackers.SearchConverges` | trsf/mtu/plpmtud.go:325-399 | on a path carrying exactly the sizes up to p, with each verdict answering the outstanding probe, at most floor(log2(max - min)) + 1 sizes are decided, and after three rounds for each the estimate is min(p, max) |
| `MtuTrackers.MTUTracker.Probe` | trsf/mtu/plpmtud.go:217-262 | which probe is issued, of which size, and the new state: search, validation or search reopened |
| `MtuTrackers.MTUTracker.Deadline` | trsf/mtu/plpmtud.go:272-305 | the next time at which Probe has something to do, or none |
| `MtuTrackers.MTUTracker.OnACK` | trsf/mtu/plpmtud.go:325-352 | the new state, and that the callback runs exactly when the estimate changed |
| `MtuTrackers.MTUTracker.OnLost` | trsf/mtu/plpmtud.go:354-399 | the new state after a search or validation loss, and that the callback runs exactly on a fallback |
| `MtuTrackers.MTUTracker.OnLargePacketACKed` | trsf/mtu/plpmtud.go:134-143 | any ACK counts as activity, and one above the base size clears the loss evidence |
| `MtuTrackers.MTUTracker.OnPeerActivity` | trsf/mtu/plpmtud.go:154-158 | the time of the last sign of life is the given one, and nothing else changes |
| `MtuTrackers.MTUTracker.OnLargePacketLost` | trsf/mtu/plpmtud.go:165-191 | a large loss is evidence, and falls back exactly when large ACKs stopped while the peer stayed active |
| `MtuTrackers.BlackHoleTimeout` | trsf/mtu/plpmtud.go:115-128 | the timeout lies between one and thirty seconds for every RTT |
| `MtuTrackers.MTUTracker.FallBackToBase` | trsf/mtu/plpmtud.go:414-433 | the search and the detector start again from the base size |
| `KeyPhases.KeyPhaseSafety` | objproto/objproto.go:1138-1217 | in every run recvPhase never exceeds sendPhase, the held keys are those of exactly three neighbouring phases, only sealed packets are delivered and each number at most once, there was one update for each phase, and any two updates are at least 1024 numbers and one second apart |
| `KeyPhases.OpensExactly` | objproto/objproto.go:1163-1217 | which first-time packets open: if and only if of the phase of the last delivery that advanced the receiver, or of the one before within three seconds of that delivery and numbered below it, or of the next and not mistaken for an old one |
| `KeyPhases.InOrderNumbersOpen` | objproto/objproto.go:1452-1488 | after every run with numbers in seal order a first-time packet opens if and only if it is of the phase of the last such delivery or of the next one, or of the phase before and arrives within three seconds of that delivery |
| `KeyPhases.UpdatesExactly` | objproto/objproto.go:1452-1462 | after every run a packet moves the sender to the next key if and only if its number is 2^22 or more beyond the last update, as a 64-bit difference, a second has passed, and, if it brings its own number, 1024 others were used up; a request does if and only if it is the first or comes 1024 numbers and a second after the last update; every packet is sealed in the phase that counts the updates, with its bit, under its own number or the next one that was never used |
| `KeyPhases.ActiveConnection.ReceiveApplication` | objproto/objproto.go:1138-1217 | what is delivered and the new receive state for every packet, altered or replayed ones included |
| `KeyPhases.ActiveConnection.CommitRecvPhase` | objproto/objproto.go:1402-1425 | the three receive keys move up by one phase and the old one expires after its retention |
| `KeyPhases.ActiveConnection.RatchetSend` | objproto/objproto.go:1348-1365 | the send key moves to the next phase |
| `KeyPhases.ActiveConnection.UpdateKey` | objproto/objproto.go:1376-1386 | an update succeeds exactly when it is the first or 1024 numbers and one second after the last, and then moves the send key to the next phase; otherwise nothing changes |
| `KeyPhases.ActiveConnection.SendApplicationFrame` | objproto/objproto.go:1440-1504 | the number, key, phase bit and automatic update of every sealed packet |
| `ReplayTrackers.ReplayTracker.InsertNonce` | objproto/objproto.go:201-262 | the answer is membership in {1..largest} minus the accepted numbers or above largest, a real call accepts exactly that number, a dry run answers alike and changes nothing, and the intervals stay sorted, disjoint and equal to that set |
| `ReplayTrackers.ReplayTracker.MergeAdjacent` | objproto/objproto.go:250-259 | the merge loop terminates, leaves no adjacent intervals and preserves the set |
| `ReplayTrackers.AcceptedOnce` | objproto/objproto.go:201-262 | in any run a number that was accepted is refused in every later attempt |
| `ReplayTrackers.AcceptedExactly` | objproto/objproto.go:201-262 | in any run an attempt is answered yes if and only if its number is at least 1 and no earlier attempt with it was real |
| `MessageChannels.MessagesStayInSequence` | objproto/message.go:76-171 | for every interleaving of sends and reads the delivered messages are exactly the first recvSeqNum in sequence order, and channel, pending senders and reorder buffer hold each of the others exactly once |
| `MessageChannels.ReadReturnsNext` | objproto/message.go:89-103 | a read returns the next message whenever no sender still holds it |
| `MessageChannels.MessageChannel.PopFromReorderBuf` | objproto/message.go:76-87 | the message with the next number leaves the buffer, or none |
| `MessageChannels.MessageChannel.ReceiveMessage` | objproto/message.go:89-103 | the loop takes from the channel until the next number appears, and buffers the others |
| `MessageChannels.MessageChannel.SendMessage` | objproto/message.go:145-171 | the message gets the next number and goes to the channel, or to a pending sender when the channel is full |
| `Rtts.SmoothedStaysBetweenSamples` | trsf/congestion/rtt.go:68-109 | for every run of positive samples with non-negative delays MinRTT is the least sample and MinRTT <= SRTT <= every bound of the samples, and RTTVAR is within that bound |
| `Rtts.TimeoutIsBounded` | trsf/congestion/rtt.go:46-48 | the probe timeout exceeds MinRTT plus the backoff, and is at most five times the largest sample plus the backoff |
| `Rtts.SmoothedFollows` | trsf/congestion/rtt.go:68-109 | on a path that takes the time a, whatever delays the peer adds and reports, after n samples the distance of SRTT from a is 7^n / 8^n of what it was, up to less than 7 ns of rounding |
| `Rtts.VariationSettles` | trsf/congestion/rtt.go:68-109 | on a settled path RTTVAR is after n samples 3^n / 4^n of what it was, up to less than 3 ns of rounding |
| `Rtts.TimeoutExceedsSample` | trsf/congestion/rtt.go:46-48 | after every run of positive samples the probe timeout exceeds the last sample less its reported delay |
| `Rtts.UnresolvedSampleBreaksTheFloor` | trsf/congestion/rtt.go:82-106 | samples of 1 and 0 leave SRTT below MinRTT |
| `Rtts.RTTStats.UpdateRTT` | trsf/congestion/rtt.go:68-109 | the new estimate for the first and for later samples, with the delay guard |
| `Pacers.TimerIsExact` | trsf/congestion/pacer.go:40-81 | at a positive bandwidth: at or after Timer the budget holds a datagram, and before it, unless the 1 ms floor postponed it, it does not |
| `Pacers.BudgetEarns` | trsf/congestion/pacer.go:66-105 | the budget is between one datagram or what is left plus earned, whichever is less, and what is left plus earned; the overflow guards never give less |
| `Pacers.PacedRateIsBounded` | trsf/congestion/pacer.go:55-64 | at constant bandwidth and MTU, a sender that waits for every timer never sends more than its first budget plus bandwidth times elapsed time; the run loop uses the timer only as a wake time (trsf/conn.go:721-725) and holds no send back for it |
| `Pacers.BudgetIsCapped` | trsf/congestion/pacer.go:66-105 | the budget never exceeds ten datagrams or two milliseconds at the bandwidth, whichever is more, and before the first send it is that much |
| `Pacers.BurstIsBounded` | trsf/congestion/pacer.go:55-64 | from its first packet on such a sender never sends more than one such burst plus bandwidth times elapsed time |
| `Pacers.BurstIsAvailable` | trsf/congestion/pacer.go:40-64 | a pacer that never sent lets datagrams out at once as long as one more of full size fits such a burst |
| `Pacers.Pacer.SendTime` | trsf/congestion/pacer.go:40-53 | the time computed in 64-bit words, rounded up, with its floor; or the division by zero of a zero bandwidth |
| `Pacers.Pacer.OnSent` | trsf/congestion/pacer.go:55-64 | the budget left after a send, never negative, and the new time and size |
| `NewRenos.WindowHoldsTwoDatagrams` | trsf/congestion/new_reno.go:40-56 | in every run of MTU tracker and window together cwnd is at least twice the current MTU |
| `NewRenos.EveryRunLeadsSomewhere` | trsf/congestion/new_reno.go:40-117 | every sequence of events is such a run and leads to exactly one state |
| `NewRenos.WindowMovesExactly` | trsf/congestion/new_reno.go:74-117 | over every run the window starts at two datagrams; a loss halves it, to no less than two datagrams, unless the last halving was less than a second ago; an ACK adds its size before the first halving and below 65536 bytes, and otherwise its square over the window, which is nothing exactly when the window exceeds that square; a change of the MTU raises it to two datagrams and no further |
| `NewRenos.AvoidanceIsLinear` | trsf/congestion/new_reno.go:74-89 | past slow start, ACKs of at most one window of bytes together enlarge the window by no more than the largest of them |
| `NewRenos.PacedBandwidthIsWindowPerRoundTrip` | trsf/congestion/new_reno.go:21-27 | the pacer's bandwidth is the window for each smoothed RTT, or millisecond if that is longer, and a quarter more |
| `NewRenos.PacedBandwidthIsPositive` | trsf/congestion/new_reno.go:21-27 | the pacer's bandwidth is positive if and only if the smoothed RTT, and one millisecond, are at most one second for each byte of window |
| `NewRenos.TimerDividesByZeroExactly` | trsf/congestion/pacer.go:40-53 | the pacing timer divides by zero if and only if the budget does not hold a datagram and the smoothed RTT is more than one second for each byte of window |
| `NewRenos.NewReno.PacingTimer` | trsf/congestion/new_reno.go:62-64 | the pacer's timer at the bandwidth of the current window and RTT |
| `NewRenos.NewReno.MaySend` | trsf/congestion/new_reno.go:66-68 | sending is permitted exactly while fewer bytes than the window are in flight |
| `NewRenos.NewReno.OnMTUUpdate` | trsf/congestion/new_reno.go:49-54 | the window grows to two datagrams of the new size if it was below |
| `NewRenos.NewReno.RecordACK` | trsf/congestion/new_reno.go:74-89 | the window after slow start or congestion avoidance |
| `NewRenos.NewReno.RecordLoss` | trsf/congestion/new_reno.go:91-117 | at most one halving each second, floored at two datagrams |
| `NewRenos.NewReno.RecordSend` | trsf/congestion/new_reno.go:70-72 | the pacer is charged at the bandwidth of the current window and RTT |

## Left out

- Processes, terminals and framing in `exec/`, and sockets, dialing, websocket and vsock in `transport/`: no protocol state of this kind.
- Real cryptography, header protection, the handshake, proxy settings and connection tables of `objproto/`: keys are symbolic, and an altered packet opens under no key.
- Wake-ups: notification tokens, the choice of the select and how long the loop sleeps are not modelled; queue membership is. Liveness is therefore stated as progress of each expiry and as placement of each stream, not as eventual delivery.
- Contexts and cancellation by context, stub streams, accept queues, keepalives, logging, and counters for diagnostics.
- Slices that share memory, and the generated Read and Write variants of the codecs: bytes are sequences, with one encoder and one decoder for each format.
- Close and pendingOpen are atomic flags in the program that are set just before the push; a step here sets the flag and pushes.
- Offsets, packet numbers and window sizes of the stream, handler and loop models are unbounded; the ACK codec, the varints and the pacer are modelled over 64 bits.
- The loss delay is 9/8 of the RTT in integers, where the program multiplies a floating-point number; the two agree below 2^53 nanoseconds.
- The order of congestion-control and MTU callbacks inside one handler call: the handler reports the bytes and the packets, and module NewRenos replays any order of them.
- `decodeRanges` appends and then reverses; the model puts each range in front.
- The second reader of a receive stream that getRecvStream makes anew after a removal, and the window updates that it asks for: the model follows the reader that held the stream.
- The length of the grace period: a removal may come at any time after the EOF frame arrived or a cancel was sent.
- Losses.DivisionIsSafeExactly: speaks of states in which the EOF is out; before that the application can always keep a stream from completing.
- Removals.RemovalIsSafeExactly: is for the same reason stated for states in which the EOF is out, which a removal after an EOF frame always is.
- Compositions.LoopIsReliable: follows the send halves of one loop against the receiving ends of their streams; the peer's own handler appears as events. Once the peer receives data of a second half of a number, nothing is stated of that number (`SecondHalfIsReadInstead` says why).
- NewRenos.PacedBandwidthIsPositive: is for windows up to 9.2 GB, at which no 64-bit product of the program wraps.
- NewRenos.TimerDividesByZeroExactly: has the same bound on the window.
- NewRenos.PacedBandwidthIsWindowPerRoundTrip: has the same bound on the window.
- LossDetections.LossStatsExact: says what Spurious and declaredLost are while at most 256 packets were lost; of more, the program remembers the last 256 that no ACK named.
- LossDetections.RttIsFold: is for ACKs that the peer's encoder can produce; so are LargestAckedIsLargestNamed and NothingLateAfterAck. For others the claim of an ACK is the number before the end of its last range.
- MtuHistories.LossLowersExactly: is for events at times other than 0, which stands for the unset time; so are the other two theorems of its module.
- Emissions.PacketsAreFull: is for budgets of at least 30, at which any header leaves room; below that a queued range that cannot be divided goes back and new bytes take its place.
- RunLoops.RunLoop.BuildPacket: send streams are values in a map, so sharing of stream objects between the application and the loop is not captured there; class `SendStream` models one stream in place.
- PacketNumTrackers.PacketNumTracker.InsertUnacked: takes packet numbers below 2^63, so that one more never wraps.
- Pacers.TimerIsExact: holds for datagrams up to 1.8 GB, above which the program's 64-bit products overflow.
