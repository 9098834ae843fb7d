# Verification of the server core and the stress client

A Dafny model of the Linux server core (`src/lib-core`) and of the buffer and framing code of
the stress client (`src/exe-StressTest`), with proofs. `dafny verify dfyconfig.toml` verifies
the whole project.

| files | what they model |
|---|---|
| `Bytes`, `ByteRing`, `RingRuns`, `RecvBuffer` | the circular byte buffer, in place and as a snapshot, against a bounded queue; array size symbolic |
| `Framing`, `StressClient`, `ClientRuns`, `ClosedLoop` | the client's ping frames, its incremental parser, and the ping going round between client and an echoing peer |
| `ReceiveJob` | RecvJob's receive loop and its stream of bytes |
| `Words`, `SessionIds`, `SessionGroup`, `SessionTableRuns` | session IDs, down to the machine's shift, or and mask, and the index pool |
| `ShortWrite`, `Session` | one thread in Send, DoSend and Disconnect, with the loops after a short write |
| `SessionProtocol`, `SessionRetirement`, `SessionCallbacks`, `SessionWire`, `SessionDelivery`, `SessionStranding`, `SessionWitness` | any number of threads in one session, step by step |
| `SessionAlone`, `ReceiveAlone`, `PoolAlone` | a thread that nobody interrupts: the steps have the effects of the objects' methods |
| `OneShotJobs`, `JobTokens`, `JobRounds` | ownership of jobs between epoll, PollJob, the queue and the workers, and how the session's own protocol sees it |
| `WorkerPool`, `PoolAccounting`, `PoolConservation`, `PoolFaults`, `PoolShutdown` | the worker pool, as an object and step by step |

Objects that the source updates in place are classes whose methods are proved against
functions on snapshots. Where threads interleave, the model is a state machine: a state, labels
that carry what the environment chooses, and runs over label sequences; every such theorem is
about all runs and any number of threads. System calls are environment choices: byte counts,
one-shot arming, counters, blocking reads. The plain bool flags are sequentially consistent.

Where the code does not do what it is for, the model keeps the code as written next to a
repaired version, and the theorems say which one they are about:

- `Write` of both buffers cuts a wrapping write one slot before the end of the array but counts
  that slot (`WriteAppendsIff`, `AsWrittenRefinesQueueIff`).
- The loop after a short `writev` compares every packet with the whole result and starts at
  `iov_len - result` (`SavedAsWrittenIsTailIff`); what it saves is never sent
  (`ShortWriteIsTheLast`).
- A failed `writev` clears `mIsSending` before the fd is retired (`WireInOrderIff`).
- Nothing waits on the second epoll, so a packet pushed between swap and clear can stay queued
  (`PacketLeftBehind` is such a run, `RunStrandsIff` and `LeftBehindIff` say of every run whether
  it ends so; `NoStrandedPacket` is about the protocol with the events delivered).
- `AddJob` and `Idle` are each two critical sections, which loses wake-ups (`LostWakeUp`,
  `RunStallsIff`, `WrittenConservesIff`), and `WakeOneThread` can pop an empty stack
  (`TwoWakersOneSleeper`), which takes a worker and two threads that add jobs (`CanFaultIff`).
- `RecvBuffer`'s constructor leaves the offsets as they are and nothing resets them before the
  first recv, so OnRecv is shown whatever the buffer then seems to hold, and only after that
  what was received (`ReceivedIsConsumedThenUnread`).
- `DeleteSession` leaves the slot valid, so a second delete of an ID frees its index twice
  (`DeleteKeepsPartitionIff`).
- The assertion in `SessionGroup` bounds the table by 65534 sessions, but the pool holds one
  index more than the vector has slots (`AddIsInRangeIff`).

## Model

| member | source | states |
|---|---|---|
| `ByteRing.Ring.DirectWriteSize` | src/lib-core/src/Network/RecvBuffer.hpp:40-47 | as written: the direct write size never exceeds the free room and always leaves the last array slot out |
| `ByteRing.Ring.DirectReadSize` | src/lib-core/src/Network/RecvBuffer.hpp:49-56 | the bytes from the front offset in one piece are the oldest queued bytes, and all of them unless the contents go round the end |
| `ByteRing.UnsplitWriteAppends` | src/lib-core/src/Network/RecvBuffer.hpp:72-91 | as written: an accepted Write within the direct size appends its data |
| `ByteRing.SplitWriteShape` | src/lib-core/src/Network/RecvBuffer.hpp:79-85 | a Write is split only in a buffer that has been read from and has not wrapped; the spilt bytes stay in front of the read offset |
| `ByteRing.SplitWriteExactEffect` | src/lib-core/src/Network/RecvBuffer.hpp:72-91 | as written: a split Write slips the stale byte of the last slot in after d = B - rear - 1 bytes and loses the last byte of the data, the old contents untouched |
| `ByteRing.WriteAppendsIff` | src/exe-StressTest/RingBuffer.hpp:71-90 | as written: an accepted Write appends its data if and only if it is not split or every byte past the cut equals the stale byte |
| `ByteRing.RepairedWriteAppends` | src/lib-core/src/Network/RecvBuffer.hpp:72-91 | repaired: every accepted Write appends its data, wraps included |
| `ByteRing.MoveReadDrops` | src/lib-core/src/Network/RecvBuffer.hpp:124-128 | moving the read offset over bytes that are there drops exactly the oldest ones |
| `ByteRing.ReceiveAppends` | src/lib-core/src/Network/RecvBuffer.hpp:130-134 | bytes put after the rear offset and counted by MoveWriteOffset are appended, without a wrap |
| `RingRuns.PeekedIsOldest` | src/lib-core/src/Network/RecvBuffer.hpp:93-113 | the one or two memcpys of Peek copy the oldest bytes, at most the size asked for |
| `RingRuns.RepairedRefinesQueue` | src/lib-core/src/Network/RecvBuffer.hpp:67-134 | repaired: through every run of operations the buffer holds and answers what a queue of capacity B - 1 does |
| `RingRuns.AsWrittenRefinesQueueIff` | src/lib-core/src/Network/RecvBuffer.hpp:67-134 | as written: the same refinement holds of a run if and only if no accepted Write of it is split over bytes that differ from the stale one |
| `RingRuns.WrittenSplitLosesAByte` | src/exe-StressTest/RingBuffer.hpp:78-87 | as written: a concrete buffer and Write after which a byte comes out that was never written |
| `RecvBuffers.RecvBuffer.Uninitialised` | src/lib-core/src/Network/RecvBuffer.hpp:14-16 | the constructor promises nothing about the offsets |
| `RecvBuffers.RecvBuffer.constructor` | src/exe-StressTest/RingBuffer.hpp:12-24 | the constructor of the client buffer starts with both offsets 0 |
| `RecvBuffers.RecvBuffer.Reset` | src/lib-core/src/Network/RecvBuffer.hpp:21-25 | from any offsets, sets both to 0 and leaves the array |
| `RecvBuffers.RecvBuffer.GetDirectReadSize` | src/lib-core/src/Network/RecvBuffer.hpp:49-56 | the readable piece is a prefix of the contents, and all of them exactly when they do not go round |
| `RecvBuffers.RecvBuffer.GetUsedSize` | src/lib-core/src/Network/RecvBuffer.hpp:58-65 | the number of queued bytes |
| `RecvBuffers.RecvBuffer.GetRemainSize` | src/lib-core/src/Network/RecvBuffer.hpp:67-70 | used and remaining size add up to B - 1 |
| `RecvBuffers.RecvBuffer.Write` | src/lib-core/src/Network/RecvBuffer.hpp:72-91 | as written, in place: accepts exactly what fits in B - 1 and leaves the state of the exact-effect lemmas |
| `RecvBuffers.RecvBuffer.WriteRepaired` | src/lib-core/src/Network/RecvBuffer.hpp:72-91 | repaired, in place: accepts exactly what fits and appends it |
| `RecvBuffers.RecvBuffer.Peek` | src/lib-core/src/Network/RecvBuffer.hpp:93-113 | copies the oldest bytes into the output and touches nothing else of it |
| `RecvBuffers.RecvBuffer.Read` | src/lib-core/src/Network/RecvBuffer.hpp:115-122 | Peek, then the same bytes leave the buffer |
| `RecvBuffers.RecvBuffer.MoveReadOffset` | src/lib-core/src/Network/RecvBuffer.hpp:124-128 | drops the oldest bytes; % is the remainder by repeated subtraction |
| `RecvBuffers.RecvBuffer.MoveWriteOffset` | src/lib-core/src/Network/RecvBuffer.hpp:130-134 | moves the rear offset only, modulo B |
| `RecvBuffers.RecvBuffer.Accept` | src/lib-core/src/ServerJob.cpp:161-182 | one recv into the rear of the buffer followed by MoveWriteOffset |
| `Framing.ParsedIff` | src/exe-StressTest/Session.cpp:67-97 | the parser answers frames and a remnant if and only if the stream is those 12-byte ping frames followed by a proper beginning of one |
| `Framing.ParseContinues` | src/exe-StressTest/Session.cpp:67-101 | parsing a remnant together with what comes next is parsing the whole stream |
| `Framing.ChunksDoNotMatter` | src/exe-StressTest/Session.cpp:47-104 | however a stream is cut into recv results, frames, remnant and failed asserts are those of the whole stream |
| `Framing.GoodHeaderIff` | src/exe-StressTest/Session.cpp:73-77 | the four bytes of a ping's header are exactly those whose little-endian size and packet id pass the two asserts |
| `StressClient.Session.constructor` | src/exe-StressTest/Session.cpp:30-39 | a new session has exactly one ping queued in the send buffer and an empty receive buffer |
| `StressClient.DecodeHeader` | src/exe-StressTest/Session.cpp:73-81 | the decoded size and packet id are those of a ping if and only if the peeked bytes are a ping's header |
| `StressClient.Session.CheckHeader` | src/exe-StressTest/Session.cpp:68-81 | whether a pass of the loop stops, fails an assert or finds a whole ping |
| `StressClient.Session.Reply` | src/exe-StressTest/Session.cpp:83-96 | takes one ping out and writes it back with the new tick |
| `StressClient.Session.ParseAll` | src/exe-StressTest/Session.cpp:67-97 | the in-place loop leaves the remnant of the whole-stream parse, answers every frame, and aborts exactly on a malformed stream; it ends |
| `StressClient.Session.DoRecv` | src/exe-StressTest/Session.cpp:47-104 | recv answer 0 or an error closes; otherwise receive buffer, send buffer and rear offset are those of the parse of old contents and chunk |
| `StressClient.Session.DoSend` | src/exe-StressTest/Session.cpp:106-135 | sends a prefix of the queued bytes and keeps the rest; an empty buffer or a failed send closes |
| `StressClient.EchoFits` | src/exe-StressTest/Session.cpp:95-96 | as written: while the replies fit before the last slot they are queued whole and in order |
| `ClientRuns.RunIsWholeStreamParse` | src/exe-StressTest/Session.cpp:47-104 | over a whole run of DoRecv calls the frames are those of the concatenated stream, the buffer ends with its rest of under 12 bytes, and an assert fails if and only if the stream is malformed |
| `ClientRuns.ReceiveIsDoRecv` | src/exe-StressTest/Session.cpp:47-104 | a step of these runs is a call of DoRecv: same contents, offsets, frames answered and failed asserts |
| `ClientRuns.RearOnlyGrows` | src/exe-StressTest/Session.cpp:49-65 | while the buffer is never emptied at most B - 1 bytes come in, and recv is asked for nothing exactly when the rear offset is B - 1 |
| `ClosedLoop.StepKeepsInv` | src/exe-StressTest/PollThread.cpp:48-101 | every hop of the closed loop keeps exactly one ping under way and none of the faults occurs |
| `ClosedLoop.OnePingForever` | src/exe-StressTest/PollThread.cpp:48-101 | the same over every run, by induction on it |
| `ClosedLoop.ClosedLoopConserves` | src/exe-StressTest/Session.cpp:30-135 | from a fresh session, any partial sends and receives: the bytes under way are one well-formed ping, asserts hold, no Write is refused, DoSend never finds an empty buffer, offsets stay within 12 |
| `ClosedLoop.HopMovesBytes` | src/exe-StressTest/PollThread.cpp:48-101 | the exact effect of every hop: which bytes go from the front of which queue to the end of the next, when an answer is made, and that nothing else changes |
| `ClosedLoop.NextPingIsReachable` | src/exe-StressTest/PollThread.cpp:48-101 | from wherever a run has led, some run goes on to the client's next answer |
| `ClosedLoop.ReadableIsDoRecv` | src/exe-StressTest/Session.cpp:47-104 | the client's part of the hop Readable is a call of DoRecv |
| `ClosedLoop.WritableIsDoSend` | src/exe-StressTest/Session.cpp:106-135 | the client's part of the hop Writable is a call of DoSend |
| `ReceiveJob.DrainAppends` | src/lib-core/src/ServerJob.cpp:152-186 | Execute appends what recv gave and never wraps |
| `ReceiveJob.FullBufferDisconnects` | src/lib-core/src/ServerJob.cpp:161-166 | with the rear offset at B - 1, or right before the front offset, recv is asked for 0 bytes and the session is given up |
| `ReceiveJob.RecvJob.GiveUp` | src/lib-core/src/ServerJob.cpp:156-158 | clears the receiving flag, retires the fd, with the effects of Disconnect |
| `ReceiveJob.RecvJob.Execute` | src/lib-core/src/ServerJob.cpp:152-186 | appends all bytes up to the first answer that ends the loop; true if and only if the fd is valid and that answer is EAGAIN or an unknown error, and then the session is untouched; else the receiving flag is cleared and the effects are those of Disconnect |
| `ReceiveJob.DrainMeans` | src/lib-core/src/ServerJob.cpp:152-186 | the specification of Execute: what it takes in and what it answers, in terms of the attempts alone |
| `ReceiveJob.RecvJob.Complete` | src/lib-core/src/ServerJob.cpp:188-220 | OnRecv is shown the unread bytes up to the end of the array, only a positive answer consumes, a fully consumed buffer is reset, a failed arm gives up only with the fd invalid, and nothing else of the session changes |
| `ReceiveJob.TurnKeepsFlow` | src/lib-core/src/ServerJob.cpp:152-204 | from any valid offsets one turn keeps consumed followed by unread equal to what was there at the start followed by what was received |
| `ReceiveJob.RunTurn` | src/lib-core/src/ServerJob.cpp:152-220 | Execute followed by Complete is one turn of the flow: received grows by what recv gave, consumed by what OnRecv took of what it was shown |
| `ReceiveJob.ReceivedIsConsumedThenUnread` | src/lib-core/src/ServerJob.cpp:152-204 | over every run from any valid offsets: consumed followed by unread is the initial contents followed by the received bytes, so it is the received bytes if and only if the buffer was empty; at most B - 1 bytes between resets; from offsets in order no wrap, and OnRecv sees everything in one piece |
| `SessionIds.UnpackInvertsPack` | src/lib-core/src/Network/SessionGroup.cpp:10-19 | GetIndex inverts the packing; of the number 16 bits survive, read as signed |
| `SessionIds.PackIsInjectiveModuloGenerations` | src/lib-core/src/Network/SessionGroup.cpp:45-47 | two IDs are equal if and only if index and number modulo 65536 are |
| `SessionIds.PackOnWords` | src/lib-core/src/Network/SessionGroup.cpp:45-47 | on 64-bit words the shift by 48 and the or, read in two's complement, are the packing the other theorems use |
| `SessionIds.IndexOnWords` | src/lib-core/src/Network/SessionGroup.cpp:10-13 | the and with the index mask is GetIndex, for every ID |
| `SessionIds.NumberOnWords` | src/lib-core/src/Network/SessionGroup.cpp:15-19 | the and with the upper mask and the arithmetic shift are GetUniqueNumber, for every Int64 |
| `Words.BitOfOr` | src/lib-core/src/Network/SessionGroup.cpp:47-47 | the or used there is the machine's, bit by bit |
| `Words.BitOfAnd` | src/lib-core/src/Network/SessionGroup.cpp:10-19 | the and used there is the machine's, bit by bit |
| `SessionGroups.SessionGroup.constructor` | src/lib-core/src/Network/SessionGroup.cpp:22-33 | the loop pushes max + 1 indices, max at the bottom and 0 on top |
| `SessionGroups.SessionGroup.AllocSession` | src/lib-core/src/Network/SessionGroup.cpp:78-89 | pops the top index, or answers -1 from an empty pool |
| `SessionGroups.EmptyPoolIsRefused` | src/lib-core/src/Network/SessionGroup.cpp:78-89 | an add on an empty pool gets -1, which is no index of the vector, and overwrites no slot |
| `SessionGroups.SessionGroup.FreeSession` | src/lib-core/src/Network/SessionGroup.cpp:91-95 | pushes the index back |
| `SessionGroups.SessionGroup.AddSession` | src/lib-core/src/Network/SessionGroup.cpp:39-53 | stamps the slot of the popped index with the packed ID; an index outside the vector is reported |
| `SessionGroups.SessionGroup.DeleteSession` | src/lib-core/src/Network/SessionGroup.cpp:55-65 | frees the index of a matching ID and leaves the slot as it is |
| `SessionGroups.SessionGroup.GetSession` | src/lib-core/src/Network/SessionGroup.cpp:67-76 | the slot whose stored ID matches, else null |
| `SessionTableRuns.StartIsPartitioned` | src/lib-core/src/Network/SessionGroup.cpp:22-33 | the constructed pool is a partition of 0..max with nothing live |
| `SessionTableRuns.AddIsInRangeIff` | src/lib-core/src/Network/SessionGroup.cpp:39-50 | an issued index is inside the vector if and only if fewer than max sessions are live |
| `SessionTableRuns.AddKeepsPartition` | src/lib-core/src/Network/SessionGroup.cpp:39-53 | adding keeps the partition and hands out a slot that no live session has |
| `SessionTableRuns.AddKeepsIds` | src/lib-core/src/Network/SessionGroup.cpp:39-53 | adding keeps every live ID resolving to its own slot, the new one included |
| `SessionTableRuns.PartitionHolds` | src/lib-core/src/Network/SessionGroup.cpp:39-97 | over every run without overfilling and double deletes: free and live indices partition 0..max without duplicates, max stays at the bottom, live IDs resolve |
| `SessionTableRuns.DeleteKeepsPartitionIff` | src/lib-core/src/Network/SessionGroup.cpp:55-65 | as written: a delete keeps the partition if and only if the ID is live, its index is outside the vector, or its slot holds another ID |
| `SessionTableRuns.DoubleDeleteSharesASlot` | src/lib-core/src/Network/SessionGroup.cpp:55-65 | as written: after a double delete the next two sessions get the same slot |
| `SessionTableRuns.StaleIdResolvesIff` | src/lib-core/src/Network/SessionGroup.cpp:39-76 | over every run: the m-th ID is answered with its slot if and only if the n-th AddSession, which built what is there, has n - m a multiple of 65536 |
| `ShortWrite.SavedAsWrittenIsSuffix` | src/lib-core/src/Network/Session.cpp:107-123 | as written: the exact suffix of the batch that the two loops save |
| `ShortWrite.SavedAsWrittenIsTailIff` | src/lib-core/src/Network/Session.cpp:107-123 | as written: the saved packets are the unsent bytes if and only if some packet is longer than the result and the bytes through it are twice the result |
| `ShortWrite.WrittenTailDiffers` | src/lib-core/src/Network/Session.cpp:107-123 | as written: a concrete short write whose saved bytes are not the unsent ones |
| `ShortWrite.FailedWriteSavesNothing` | src/lib-core/src/Network/Session.cpp:91-114 | the result -1 becomes the largest size_t, so after a failed writev nothing is saved |
| `ShortWrite.SkipRepaired` | src/lib-core/src/Network/Session.cpp:107-123 | repaired: for every batch and every result the saved packets concatenate to exactly the unsent bytes |
| `Sessions.Session.constructor` | src/lib-core/src/Network/Session.hpp:18-22 | initial flags of a session |
| `Sessions.Session.Disconnect` | src/lib-core/src/Network/Session.cpp:9-28 | retires the fd; the effects are those of the next row |
| `Sessions.DisconnectEffectsMean` | src/lib-core/src/Network/Session.cpp:13-27 | a valid fd is deleted from epoll first and closed second, once each, an invalid one neither; OnDisconnected is called last, if and only if the session neither receives nor sends |
| `Sessions.Session.SaveTail` | src/lib-core/src/Network/Session.cpp:107-123 | as written, in place: the two loops leave exactly the packets of the written specification in mSendJob |
| `Sessions.Session.WriteBatch` | src/lib-core/src/Network/Session.cpp:73-105 | the writev loop: flag, fd and effects of each of its endings, in the order of the code |
| `Sessions.FirstAnswerDecides` | src/lib-core/src/Network/Session.cpp:73-105 | an interrupted writev is tried again, and the first other answer decides the ending; with an invalid fd writev is not called |
| `Sessions.EffectsMean` | src/lib-core/src/Network/Session.cpp:73-129 | bytes go out first and only in a full or short write; the event is armed last, after every short or failed write and no other |
| `Sessions.Session.DoSend` | src/lib-core/src/Network/Session.cpp:53-129 | uninterrupted: swap, write, and for each ending the flag, the fd, the saved packets and all effects in order |
| `Sessions.Session.Send` | src/lib-core/src/Network/Session.cpp:30-51 | uninterrupted: ignores an empty buffer, only queues while the flag is set, else sends everything queued and arms the event |
| `SessionRetirement.NextKeepsInv` | src/lib-core/src/Network/Session.cpp:9-28 | every atomic step keeps the retirement invariant: one retirer, delete before close, one receiver, callbacks in order |
| `SessionRetirement.FdRetiredOnce` | src/lib-core/src/Network/Session.cpp:9-28 | over every run with any number of threads: deleted at most once, closed at most once, in that order, only once retired; every OnDisconnected finds it retired |
| `SessionRetirement.RetiredForGood` | src/lib-core/src/Network/Session.cpp:11-11 | no step makes a retired fd valid again or a session that stopped receiving receive again |
| `SessionRetirement.NoRecvAfterDisconnected` | src/lib-core/src/ServerJob.cpp:155-219 | over every run: no OnRecv after an OnDisconnected, at most one thread in RecvJob, none once the receiving flag is clear |
| `SessionCallbacks.CallsExactly` | src/lib-core/src/Network/Session.cpp:13-27 | every step: OnDisconnected is called exactly by the step CallDisconnected, OnRecv exactly by showing bytes, and no call is taken back |
| `SessionCallbacks.ReachesCallIff` | src/lib-core/src/Network/Session.cpp:13-27 | every step: a thread comes to the call if and only if it finds the sending flag clear, and to that reading if and only if it finds the receiving flag clear |
| `SessionCallbacks.CallerFoundBothClear` | src/lib-core/src/Network/Session.cpp:13-27 | every run: a thread is about to call OnDisconnected if and only if it found first the receiving and then the sending flag clear and did nothing else since |
| `SessionAlone.UninterruptedDisconnect` | src/lib-core/src/Network/Session.cpp:9-28 | from any state, a Disconnect that nobody interrupts retires the fd and has the effects of Session.Disconnect, in their order |
| `SessionAlone.DoSendAlone` | src/lib-core/src/Network/Session.cpp:53-129 | as written, from any state: a DoSend that nobody interrupts has the flag, fd and effects of Session.DoSend for the same answers of writev |
| `SessionAlone.UninterruptedSend` | src/lib-core/src/Network/Session.cpp:30-51 | as written, from any state: a Send that wins the flag sends all that is queued and arms the event with the fd it then finds, as Session.Send |
| `SessionAlone.UninterruptedSendQueues` | src/lib-core/src/Network/Session.cpp:36-43 | from any state: a Send that finds the flag set only queues its packet |
| `SessionAlone.SendJobTakesItsEvent` | src/lib-core/src/ServerJob.cpp:226-232 | the send event is one-shot: fired and taken, it is disarmed and no firing is left over |
| `SessionAlone.RecvJobTakesItsEvent` | src/lib-core/src/ServerJob.cpp:188-220 | the receive event is one-shot: armed, it can fire once, and the thread that takes the job begins Execute |
| `ReceiveAlone.UninterruptedExecute` | src/lib-core/src/ServerJob.cpp:152-186 | from any state: an Execute that nobody interrupts goes on to Complete or gives the session up exactly as RecvJob.Execute, with the same effects |
| `ReceiveAlone.UninterruptedComplete` | src/lib-core/src/ServerJob.cpp:188-220 | from any state: a Complete that nobody interrupts arms, drops the job or gives the session up exactly as RecvJob.Complete |
| `SessionWire.NextKeepsInv` | src/lib-core/src/Network/Session.cpp:30-105 | every step of Send callers keeps the wire invariant |
| `SessionWire.SendIsExclusive` | src/lib-core/src/Network/Session.cpp:41-105 | over every run of Send callers at most one thread is between winning the test-and-set and clearing the flag |
| `SessionWire.RepairedWireInOrder` | src/lib-core/src/Network/Session.cpp:73-105 | repaired (fd retired before the flag is cleared): over every run the wire is in order, whatever writev answers |
| `SessionWire.WireInOrderIff` | src/lib-core/src/Network/Session.cpp:73-105 | as written: the wire is in order after a run if and only if nothing was written after a failed writev |
| `SessionWire.InOrderIsPrefix` | src/lib-core/src/Network/Session.cpp:36-64 | a wire in order is a prefix of all pushed packets concatenated in lock order |
| `SessionWire.ShortWriteIsTheLast` | src/lib-core/src/Network/Session.cpp:107-128 | as written: after a short write the flag stays set and not one more byte reaches the wire |
| `SessionWitness.BlockedWriteLeavesAGap` | src/lib-core/src/Network/Session.cpp:83-87 | as written: a run with one EAGAIN after which a packet is missing on the wire |
| `SessionWitness.PacketLeftBehind` | src/lib-core/src/Network/Session.cpp:36-50 | as written: a run after which all threads are idle and a packet is still queued, the witness for the next rows |
| `SessionStranding.StrandedAfterIff` | src/lib-core/src/Network/Session.cpp:36-64 | as written, every step: a packet is stranded if and only if the last thread on its way to the list loses its test-and-set, or it was stranded and neither Send nor SendJob begins |
| `SessionStranding.RunStrandsIff` | src/lib-core/src/Network/Session.cpp:36-64 | as written, every run: it ends with a stranded packet if and only if some step was such a lost test-and-set and no Send or SendJob began after it |
| `SessionStranding.LeftBehindIff` | src/lib-core/src/Network/Session.cpp:36-64 | as written: once all threads are idle, packets are still queued if and only if the run has such a step |
| `SessionStranding.StrandedPastTheSwap` | src/lib-core/src/Network/Session.cpp:41-64 | in every run the thread that has the flag at such a step is past its swap, unless a short write left the flag set |
| `SessionDelivery.NextKeepsInv` | src/lib-core/src/Network/Session.cpp:36-64 | with events delivered and whole writes, every step keeps queued packets cared for and the flag owned |
| `SessionDelivery.NoStrandedPacket` | src/lib-core/src/Network/Session.cpp:36-64 | assumed delivery, live fd, whole writes: a queued packet always has a thread, an armed event or a pending SendJob that will look at it; a set flag has a live owner |
| `OneShotJobs.TokensMove` | src/lib-core/src/ServerJob.cpp:25-46 | every step moves a job between epoll, polled events, queue and workers; the exact steps that make or drop one |
| `OneShotJobs.OneOwnerAlways` | src/lib-core/src/ServerJob.cpp:25-46 | over every run: each job is in at most one place, PollJob in exactly one |
| `OneShotJobs.EachJobRunsSequentially` | src/lib-core/src/ServerJob.cpp:126-220 | over every run: the events of each job are whole Execute/Complete turns of one worker at a time, a turn of PollJob counted up to its self-re-add |
| `JobTokens.TokenMoves` | src/lib-core/src/ServerJob.cpp:25-46 | every step of poller, workers and epoll moves the place of a session's RecvJob exactly as its token moves in the session protocol |
| `JobTokens.RunIsTokenLife` | src/lib-core/src/ServerJob.cpp:152-220 | over every run the places of an accepted session's RecvJob are a life of that token: armed, polled or queued, running, armed again or gone |
| `JobTokens.ProtocolTokenMoves` | src/lib-core/src/ServerJob.cpp:152-220 | every step of the session protocol moves its token by the same permitted moves |
| `JobTokens.DroppedForGood` | src/lib-core/src/ServerJob.cpp:152-220 | over every run: a RecvJob that was dropped is never in any place again |
| `JobRounds.RoundOfOneJob` | src/lib-core/src/ServerJob.cpp:25-46 | with PollJob queued and a free worker an armed job can go all the way round and is armed again; the log then holds one whole turn of it and one of PollJob |
| `JobRounds.AcceptedIsArmed` | src/lib-core/src/ServerJob.cpp:126-129 | while AcceptJob runs it can register a further session, whose event is then armed |
| `WorkerPool.WorkerThreadPool.Start` | src/lib-core/src/WorkerThreadPool.cpp:27-49 | running, one eventfd counter at 0 for each worker |
| `WorkerPool.WorkerThreadPool.PopJob` | src/lib-core/src/WorkerThreadPool.cpp:127-139 | takes the oldest job, or answers null |
| `WorkerPool.WorkerThreadPool.WakeOneThread` | src/lib-core/src/WorkerThreadPool.cpp:89-107 | uninterrupted: nothing for an empty stack, else pops the top and writes its eventfd |
| `WorkerPool.WorkerThreadPool.AddJob` | src/lib-core/src/WorkerThreadPool.cpp:62-70 | uninterrupted: the job is queued last and one idle worker woken |
| `WorkerPool.WorkerThreadPool.PushIdle` | src/lib-core/src/WorkerThreadPool.cpp:111-114 | pushes the worker |
| `WorkerPool.WorkerThreadPool.ReadEvent` | src/lib-core/src/WorkerThreadPool.cpp:116-124 | takes the whole counter |
| `WorkerPool.WorkerThreadPool.PollEvents` | src/lib-core/src/WorkerThreadPool.cpp:72-87 | jobs executed, then those queued, are those queued before and pushed meanwhile, in order; as many are executed as passes found the queue not empty; the loop ends with the first pass that finds the pool stopped |
| `WorkerPool.BusyAllTheTime` | src/lib-core/src/WorkerThreadPool.cpp:76-86 | if jobs never run out every pass executes one |
| `WorkerPool.PopTakesOldest` | src/lib-core/src/WorkerThreadPool.cpp:62-64 | the job queue is first in, first out: popping and pushing change places unless it is empty |
| `WorkerPool.PopUndoesPush` | src/lib-core/src/WorkerThreadPool.cpp:91-114 | the idle stack is last in, first out: a pop takes the worker pushed last and undoes its push |
| `PoolAlone.UninterruptedAddJob` | src/lib-core/src/WorkerThreadPool.cpp:62-107 | every version, from any state: an AddJob that nobody interrupts queues the job last and wakes the worker on top of the stack, as WorkerThreadPool.AddJob |
| `PoolAlone.UninterruptedPass` | src/lib-core/src/WorkerThreadPool.cpp:72-87 | from any state: a worker that finds a job executes the oldest and comes back |
| `PoolAlone.UninterruptedIdle` | src/lib-core/src/WorkerThreadPool.cpp:76-114 | from any state: a worker that finds no job pushes itself on top of the stack and reads its eventfd |
| `PoolAlone.UninterruptedWakeUp` | src/lib-core/src/WorkerThreadPool.cpp:116-124 | from any state: a woken worker takes its whole counter and goes on, or leaves if the pool was stopped |
| `PoolAccounting.NextKeepsTokens` | src/lib-core/src/WorkerThreadPool.cpp:62-139 | every step before Stop keeps the wake tokens |
| `PoolAccounting.OneWakeUpPerSleeper` | src/lib-core/src/WorkerThreadPool.cpp:89-125 | every version, over every run before Stop: stack, wakers and eventfd together hold one wake-up for a worker between idle push and read return, else none |
| `PoolAccounting.JobsLeaveInOrder` | src/lib-core/src/WorkerThreadPool.cpp:62-139 | every version, over every run: jobs popped followed by jobs queued are the jobs added, in order |
| `PoolConservation.AtomicConservesWork` | src/lib-core/src/WorkerThreadPool.cpp:62-141 | repaired: over every run, with a worker on the idle stack there are no more jobs than workers awake; jobs are never queued with all workers asleep |
| `PoolConservation.WrittenConservesIff` | src/lib-core/src/WorkerThreadPool.cpp:62-141 | every version, every run: while a worker is on the idle stack there are no more jobs than workers awake and threads about to wake one, if and only if no worker lies down while more jobs than that are queued |
| `PoolConservation.NextConservesIff` | src/lib-core/src/WorkerThreadPool.cpp:76-114 | every version: the step that breaks this bound is exactly such an idle push |
| `PoolConservation.StallsIff` | src/lib-core/src/WorkerThreadPool.cpp:76-114 | every version: a step stalls the pool if and only if it is the last awake worker pushing itself while jobs are queued and nobody is in AddJob |
| `PoolConservation.RunStallsIff` | src/lib-core/src/WorkerThreadPool.cpp:76-114 | every version: a run passes through a stalled pool if and only if one of its steps is that idle push |
| `PoolConservation.StalledIsStuck` | src/lib-core/src/WorkerThreadPool.cpp:116-118 | a stalled pool stays so until the next AddJob or Stop |
| `PoolConservation.LostWakeUp` | src/lib-core/src/WorkerThreadPool.cpp:62-118 | as written: a run that ends with a job queued and the only worker asleep |
| `PoolConservation.TwoWakersOneSleeper` | src/lib-core/src/WorkerThreadPool.cpp:91-100 | as written: a run in which two threads pop a stack of one, the witness for the next rows |
| `PoolFaults.CanFaultIff` | src/lib-core/src/WorkerThreadPool.cpp:62-107 | every version: some run from a started pool pops an empty stack if and only if it is the pool as written with a worker and two threads that may be in AddJob |
| `PoolFaults.NeverPopsEmpty` | src/lib-core/src/WorkerThreadPool.cpp:62-107 | guarded, atomic, without a worker or with one adding thread: no run pops an empty stack, Stop included |
| `PoolFaults.OneSleeperTwoAdders` | src/lib-core/src/WorkerThreadPool.cpp:89-107 | as written: from any state with one worker asleep and two threads outside AddJob an empty stack can be popped |
| `PoolShutdown.EveryStepCounts` | src/lib-core/src/WorkerThreadPool.cpp:51-60 | after Stop clears mIsRunning every step of a worker or of Stop lowers the measure, AddJob leaves it |
| `PoolShutdown.NeverBlocked` | src/lib-core/src/WorkerThreadPool.cpp:51-60 | until Stop has returned, Stop or the worker it waits for can move |
| `PoolShutdown.EveryJoinReturns` | src/lib-core/src/WorkerThreadPool.cpp:51-60 | from the call of Stop on: at most 6 * workers + 1 steps, and never stuck before Stop has returned |
| `PoolShutdown.OneMoreJobAndRead` | src/lib-core/src/WorkerThreadPool.cpp:72-125 | after mIsRunning is false a worker takes at most one more job or returns from at most one more read |

## Left out

- Sockets, epoll, eventfd, pthread and Winsock themselves: only their effects on counts, arming, counters and blocking are modelled.
- Reuse of fd numbers by the kernel, lifetimes of sessions and packets: every session has a fresh fd, and a packet's bytes do not change between Send and writev, although Send keeps only a pointer.
- Reuse of a slot of the session vector while its old RecvJob or SendJob is still queued.
- How often OnDisconnected is called: as written a Send after the disconnect can call it again.
- The sum of packet sizes in DoSend is not bounded to 32 bits: a batch over 2^31 - 1 bytes is not modelled.
- Asserts compiled out: DoRecv is modelled with its asserts on; `peekSize` and `readSize` are proved, the two on the header are the outcome AssertionFailed.
- Interleavings inside AddSession: allocating the index, drawing the number and building the session are one step; several groups sharing the counter are not modelled.
- AcceptJob's accept loop: only its effect of registering new sessions' events, and its one-shot arming, are modelled.
- SendPollJob: its constructor is private and nothing creates it.
- A worker that calls AddJob or Send from inside a job or from OnRecv is modelled as two threads, which allows more interleavings than the code has.
- Execute and Complete of a job are one step of a worker in the worker pool; they are two in OneShotJobs.
- The joins of Stop exist as steps of the state machine only, not as a method; after Stop the contexts are not cleared.
- Fairness of the scheduler and termination of jobs: PoolShutdown shows that the shutdown needs a bounded number of steps and always has a next one.
- RTT statistics, logging, endpoints, locks, the profiler, `src/exe-game`, `PollThread::ConnectClients`, `Server::Start` socket setup and the build files.
- WorkerPool.WorkerThreadPool.PollEvents: one worker, with its wake-up and the other threads' pushes put between its passes; what several workers do at once is in PoolAccounting.JobsLeaveInOrder and the modules beside it.
- OneShotJobs.EachJobRunsSequentially: a turn of PollJob ends at its self-re-add; the rest of its Execute (waking a worker) and its empty Complete can overlap the next PollJob in the source, which the model does not show.
- RecvBuffer offsets outside the array, which its constructor may leave: recv would then write outside the array, which has no meaning here.
- SessionDelivery.NoStrandedPacket: does not cover short or failed writes, after which the code gives the session up or leaves the flag set.
