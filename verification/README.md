# Multipath transfer: a verified model

A client cuts a payload into chunks, a scheduler stripes or duplicates them over N independent ordered streams, and a
server reads the N streams concurrently into one completion tracker, checks every chunk, and confirms each drained
path with one byte. This project models that protocol as one connected system and proves what it guarantees.

`dafny verify dfyconfig.toml` checks everything.

| file | what it models |
|---|---|
| `Bytes.dfy`, `Sums.dfy` | bytes, fixed-width integers, sums over sequences and maps |
| `Crc.dfy` | the CRC-32 of section 8 of RFC 1952, bit by bit on `bv32` |
| `Division.dfy`, `KnownAnswers.dfy` | the same checksum as the remainder of a polynomial division, and known answers |
| `Streams.dfy` | readers, writers and big-endian integers |
| `Chunks.dfy`, `Preambles.dfy` | the wire format of chunk frames and of preambles, and reading to the end of a stream |
| `Reassembly.dfy` | `Split` and the `Reassembler` class |
| `Bursts.dfy` | the `BurstTracker` class of continuous sessions |
| `Schedulers.dfy` | the three schedulers, and what their choices add up to |
| `Credit.dfy` | what a burst credits to each path, and when that depends on the order of arrival |
| `BurstLog.dfy` | tracker, sweep loop and shutdown callers racing for the burst log: a state machine |
| `Incarnations.dfy` | the same race over whole runs: every incarnation of a burst is reported once; repeated shutdowns |
| `BurstRows.dfy` | the rows of the burst log as they are written to its file |
| `PathLog.dfy` | the burst log path by path |
| `Continuous.dfy` | a continuous session's server as one state machine: connections, tracker and log together |
| `Sessions.dfy` | a server session with any number of connections: a state machine of its locked steps |
| `Server.dfy`, `Client.dfy` | the code of both sides, as classes and loops, tied to the specifications above |
| `Transfer.dfy` | a whole one-shot transfer: client, network and server as one state machine |
| `TransferSafety.dfy` | the invariant of every reachable state of a transfer |
| `Guarantees.dfy` | the end-to-end theorems |
| `ClientRuns.dfy` | what the client's code does is a run of the whole-transfer machine |

Every method that the source protects with a mutex is one atomic step. A path is a reliable ordered byte stream with a
FIN (section 2.2 of RFC 9000): the server sees an arbitrary growing prefix of what the client wrote. On the way the
data of each frame may be damaged within any 32 consecutive bits. A write may fail after part of a frame; a stream
that has failed once takes no more bytes and gets no FIN.

## What the proofs say about the code

- The bytes come back: in every reachable state of a transfer the server has not panicked and its buffer is the
  payload on the received slots and zero elsewhere; when all streams have ended plainly it is complete exactly if of
  every chunk one undamaged copy was sent (`DrainedTransferIsComplete`).
- The drain acknowledgement proves delivery of everything ever queued for its path (`AckProvesDelivery`), and under
  the redundant scheduler one acknowledged undamaged path is enough for the whole payload (`OnePathIsEnough`).
- Every incarnation of a burst, that is its arrivals between two moments at which it is taken out of the tracker, is
  reported exactly once, with the summary of exactly these arrivals, whatever sweeps, shutdowns and paths race
  (`EveryIncarnationIsReportedOnce`), and nothing else is ever reported (`EveryReportIsAnIncarnation`).
- The bytes on the wire are said byte by byte: the digits to the base 256 of each field, the most significant first, at
  fixed offsets of a frame or preamble (`WriteChunk`, `WriteControlHeader`, `WritePathHello`), and which CRC the
  checksum is: the complement of a remainder modulo the generator given by its exponents (`ChecksumIsRemainder`).
- A continuous session's log accounts for its connections: whatever is interleaved, what is logged, in hand and tracked
  on a path is exactly what the path's connection has read, and failed, so far (`TrackerAccountsForConnections`).
- Some documented promises hold only under conditions, and the exact conditions are proved:
  - `Split` loops forever exactly if its effective chunk size is 0 and there is data: chunk size 0 and a length that
    is a positive multiple of 2^32 (`SplitTerminates`, `SplitLoopsForever`).
  - The number of slots computed by `NewReassembler` is the rounded-up quotient exactly if the 64-bit sum does not
    overflow and the quotient fits a signed integer (`BoundedCountAgrees`).
  - A frame is read back as written exactly if its data is shorter than 2^32, a control header exactly if the
    scheduler's name is shorter than 2^16 (`FrameRoundTrip`, `ControlRoundTrip`).
  - A plain end of stream does not mean a frame boundary: it comes exactly when the bytes run out between two fields
    (`Truncation`). It proves delivery only because the client sends a FIN after whole frames only.
  - Round-robin is fair in every window of every run exactly if the number of paths divides 2^64; otherwise the
    counter's wrap serves one path twice while another is skipped (`FairEverywhere`). Below the wrap it is always fair.
  - The WaitGroup goes negative exactly when a path finishes after all announced ones have (`CounterGoesNegative`);
    `OnePathTooMany` is such a run.
  - A second shutdown is not always without effect: a flush, the first or a later one, does nothing exactly if no
    burst has had an arrival since it was last taken out (`FlushDoesNothingIff`, `FlushDoesNothingInRun`).
    `SecondFlushCanReport` is a run whose second flush reports a burst.
  - The client's "complete" flag of a burst compares all bytes sent with the burst's size; with every write
    successful it is true exactly if there is nothing to send or no copies are made, so it is false for fully sent
    bursts under the redundant scheduler with two or more paths (`SendBurst`, `SentEqualsSizeOnlyWithoutCopies`).
  - Totals of a burst do not depend on the order of arrival (`TotalsIgnoreOrder`). The bytes credited to its paths are
    independent of it exactly if no chunk with data came uncorrupted over two different paths (`CreditIgnoresOrderIff`),
    which any scheduler that makes no copies guarantees (`NoCopiesNoRace`).
- Where comments and code differ the model follows the code: every call of `shutdownContinuous` flushes the tracker,
  not only the first (cmd/server/main.go:332-342), and `rttAware` falls back to rotation only if no path at all is
  measured, not for single unmeasured paths (internal/scheduler/rtt_aware.go:7-31).

## Model

| member | source | states |
|---|---|---|
| Guarantees.EveryBufferIsRight | cmd/server/main.go:118-160 | in every reachable state of every transfer there is no panic, and the buffer equals the payload on exactly the slots of which an undamaged copy has been read, and is zero elsewhere |
| Guarantees.DrainedTransferIsComplete | cmd/client/main.go:386-429 | for any scheduler, round-trip times, interleaving and damage: when every stream has been read to its plain end, the reassembler is complete iff every chunk had an undamaged copy, and then holds exactly the payload; without damage it always is |
| Guarantees.AckProvesDelivery | cmd/client/main.go:306-320 | once the client has read a path's acknowledgement, the server has handled every chunk ever queued for it, in order, nothing was lost, and the path's result with the client's own counts is recorded |
| Guarantees.OnePathIsEnough | internal/scheduler/redundant.go:9-15 | under the redundant scheduler, one confirmed path with undamaged frames gives the whole payload, whatever happens on the others |
| Guarantees.VerdictMeansUndamaged | cmd/server/main.go:362-368 | after plain ends on all paths there is one end of session, it saw all results, and its verdict is true iff no frame at all was damaged |
| Guarantees.BytesAreConserved | cmd/server/main.go:164-172 | after plain ends the server's bytes and chunks equal the client's path by path, and in all the payload once, or once per path for the redundant scheduler |
| Guarantees.EverythingIsCounted | cmd/client/main.go:397-412 | when everything has been sent without a failed write, the client's counters sum to the payload once per copy |
| Guarantees.SentEqualsSizeOnlyWithoutCopies | cmd/client/main.go:215-222 | the client's test "sent equals size" holds iff the scheduler makes no copies |
| Guarantees.CompleteMeansPayload | internal/transfer/chunk.go:193-198 | in every safe state the assembly is complete iff every slot has arrived undamaged, and then its bytes are the payload |
| Guarantees.PlainEndDelivers | cmd/server/main.go:174-188 | a plain end on a path means that all that was queued was written whole, read and counted alike on both sides |
| Guarantees.FinEndsPlainly | cmd/server/main.go:123-131 | once a closed stream is fully delivered its reader always has a next whole frame or the plain end, never an unexpected end |
| TransferSafety.StepIsSafe | cmd/client/main.go:386-429 | every step of scheduler, writers, network, readers and drain handshake, failed writes and timeouts included, keeps the transfer's invariant |
| TransferSafety.RunIsSafe | cmd/server/main.go:78-189 | the invariant holds in every reachable state, for any number of paths |
| TransferSafety.SeenFrame | internal/transfer/chunk.go:101-127 | whatever prefix of a path's stream has been delivered, a frame the reader sees there is the next one written, whole |
| TransferSafety.SeenEnd | cmd/server/main.go:123-131 | a reader that has reached the FIN and sees no further frame has read every frame written on the path |
| TransferSafety.ArrivesVerified | internal/transfer/chunk.go:43-46 | a frame passes its checksum on arrival iff its data is undamaged |
| TransferSafety.AssignKeepsSchedule | cmd/client/main.go:416-424 | every path index a scheduler answers is a queue, and the bytes still to be queued stay accounted for |
| TransferSafety.ServerStepIsSound | cmd/server/main.go:132-147 | on what the paths bring no step of the server panics, and its session stays sound and faithful to the payload |
| Sessions.RunIsSound | cmd/server/main.go:230-282 | for any number of connections and any chunks, every state of every run satisfies the barrier, the counters and the slot invariant |
| Sessions.NothingBeforeTheBarrier | cmd/server/main.go:110-116 | no chunk is read and no path finishes before start, and from then on header and kind of tracker never change |
| Sessions.StartHappensOnce | cmd/server/main.go:254-272 | once started, a further start changes nothing, and no step changes the header or which tracker exists |
| Sessions.SessionEndsOnce | cmd/server/main.go:274-281 | with the announced number of connections the end is possible iff every path has finished and it has not happened, happens at most once, and sees exactly the paths' results |
| Sessions.EndComesLast | cmd/server/main.go:355-360 | with the announced number of connections the counter never goes negative, and it is zero iff all have finished |
| Sessions.CounterGoesNegative | cmd/server/main.go:359-359 | finishing a path makes the WaitGroup negative iff all announced paths have been recorded before |
| Sessions.OnePathTooMany | cmd/server/main.go:270-270 | a run in which two paths finish although the header announces one, and the counter goes negative |
| Sessions.StepKeepsRecorded | cmd/server/main.go:355-360 | the recorded results are those of the finished connections, each once, in every interleaving |
| Sessions.StepKeepsCounts | cmd/server/main.go:118-138 | a connection's bytes, chunks and corrupted counts are those of the chunks it has read |
| Sessions.StepKeepsSlots | cmd/server/main.go:145-147 | a slot is marked received iff some path has brought an uncorrupted chunk of it, whatever else is sent |
| Sessions.IntegrityVerdict | cmd/server/main.go:362-368 | over all runs the verdict is true iff no chunk on any path failed its checksum and every slot was brought uncorrupted |
| Sessions.VerdictMeansPayload | cmd/server/main.go:362-377 | if every chunk that passes its checksum is genuine, a true verdict means that the buffer is the payload |
| Sessions.ContinuousChunk | internal/transfer/burst.go:54-81 | the same at a continuous session in the fields of the burst's entry and of its path's share |
| Sessions.StartsUnless | cmd/server/main.go:254-272 | a header with total size 0 always starts a continuous session without a panic; another starts a one-shot session iff its total is below 2^63 and its effective chunk size positive |
| Server.ServerSession.Start | cmd/server/main.go:254-282 | the session becomes what the specification of starting says, only the first time: a burst tracker with the time-to-live for total size 0, else a reassembler of the total and the effective chunk size; a total that does not fit a signed integer, or an effective chunk size 0, panics |
| Server.ServerSession.HandleChunk | cmd/server/main.go:132-150 | a chunk goes to the one tracker there is, a corrupted one only to the burst tracker and marked as such; it is corrupted iff its checksum is not that of its data |
| Server.ServerSession.PathDone | cmd/server/main.go:355-360 | appends the result and counts down, panicking below zero |
| Server.ServerSession.Finalize | cmd/server/main.go:362-368 | the verdict computed by the loop over results is that of the specification |
| Server.ServerSession.ShutdownContinuous | cmd/server/main.go:336-342 | reports every entry still tracked exactly once and leaves the tracker with none; a session without a tracker is left alone |
| Server.ServerSession.End | cmd/server/main.go:274-281 | when the counter reaches zero a continuous session is flushed and a one-shot session gets its verdict, as the specification of the end says |
| Server.ServerSession.Greet | cmd/server/main.go:95-112 | a connection is admitted iff a whole preamble is there, with the path index it names, and only a control header starts the session |
| Server.ServerSession.ReadPath | cmd/server/main.go:118-188 | every chunk of the stream is handled in order, the recorded counts are those of the chunks read, and the path is acknowledged iff its stream ended plainly |
| Server.ServerSession.ReadChunks | cmd/server/main.go:118-150 | the loop of it: the chunks handled and counted are those of the stream, in order, up to its end or a panic |
| Server.ContinuousPath | cmd/server/main.go:140-144 | a path's chunks leave a continuous session's tracker as writing them one by one would, each with its path, time and corrupted iff its checksum is wrong; there is no panic |
| Server.OneShotPath | cmd/server/main.go:145-147 | they leave a one-shot session's buffer as placing the intact ones in order would, with a panic iff one of these cannot be placed |
| Server.SessionRegistry.GetOrCreate | cmd/server/main.go:202-211 | connections meet in one session iff they name the same one; a new one is fresh |
| Client.PathConn.WriteQueue | cmd/client/main.go:395-412 | the stream gets the frames of the queue in order, and the counters grow by exactly their data |
| Client.Enqueue | cmd/client/main.go:421-423 | each queue grows by the chunk as often as the answer names it |
| ClientRuns.SendingIsARun | cmd/client/main.go:386-429 | whatever the scheduler answers, the state the client's code leaves its streams and counters in is reached by a run of the transfer's assign, push, write and count steps |
| Client.FillQueues | cmd/client/main.go:416-424 | the queues are what the scheduler's answers make of the chunks, all bytes are queued once per copy, and no chunk is left out |
| Client.MultipathClient.SendChunks | cmd/client/main.go:386-429 | every path's stream and counters grow by exactly its queue, for queues that hold every chunk as often as the scheduler makes copies |
| Client.MultipathClient.Snapshot | cmd/client/main.go:255-263 | the totals of all paths' bytes and chunks |
| Client.MultipathClient.SnapshotPerPath | cmd/client/main.go:273-281 | each path's bytes and chunks |
| Client.MultipathClient.SendBurst | cmd/client/main.go:194-231 | the path rows say what each path sent, with its index and the burst's size, and add up to the burst's row, which counts every copy of every byte and chunk; every row is complete iff its bytes are the burst's size, for the burst's row iff it is empty or sent in one copy |
| Client.PathConn.Drain | cmd/client/main.go:308-320 | confirmed iff the stream can be closed and a byte comes before the end; without closing nothing is read |
| Crc.BurstErrorDetected | internal/transfer/chunk.go:43-46 | for data of any length, every change confined to 32 consecutive bits changes the checksum |
| Crc.FourBytesAreABurst | internal/transfer/chunk_test.go:73-87 | a change confined to four consecutive bytes is such a change, hence the flipped byte of the test |
| Crc.FoldIsRun | internal/transfer/chunk.go:90-90 | the byte-wise register equals the bit-wise one run over the message's bits |
| Crc.RunsThatMeet | internal/transfer/chunk.go:43-46 | two runs of at most 32 bits that meet started within that many low places of each other, and with equal bits if from one state |
| Division.ChecksumIsRemainder | internal/transfer/chunk.go:43-46 | for all data the checksum is the number whose binary digits, lowest first, are the complement of what long division by x^32+x^26+x^23+x^22+x^16+x^12+x^11+x^10+x^8+x^7+x^5+x^4+x^2+x+1 leaves of the message's bits, low bit of each byte first, 32 zeros appended and the first 32 inverted |
| Division.RemainderRemains | internal/transfer/chunk.go:43-46 | that long division is division: every dividend is the sum of a multiple of the generator and the remainder |
| Division.GeneratorPlaces | internal/transfer/chunk.go:90-90 | the register's constant is the generator without its highest power, lowest place first |
| KnownAnswers.ChecksumOfZero | internal/transfer/chunk.go:43-46 | a single zero byte has checksum 0xD202EF8D |
| KnownAnswers.ChecksumOfNineDigits | internal/transfer/chunk.go:43-46 | the nine characters 1 to 9 have checksum 0xCBF43926 |
| Streams.EncodedDigit | internal/transfer/chunk.go:75-90 | byte i of an encoded integer of k bytes is its digit of weight 256^(k-1-i) |
| Streams.DecodeIsBigEndian | internal/transfer/chunk.go:103-119 | a decoded integer is the sum of its bytes times 256^(length-1-i) |
| Chunks.WriteChunk | internal/transfer/chunk.go:72-95 | appends the frame: number, offset, burst and its size in eight bytes each, the data's length and checksum in four, each by its base-256 digits from the most significant, and the data; whatever checksum the chunk carries |
| Chunks.ReadChunk | internal/transfer/chunk.go:97-127 | takes a whole frame off the front, with the fields that the bytes at the fixed offsets stand for, or uses the stream up, with the plain end iff the bytes ran out between two fields |
| Chunks.FrameLayout | internal/transfer/chunk.go:74-95 | what every frame holds at the offsets 0, 8, 16, 24, 32, 36 and 40, wherever it is in a stream |
| Chunks.FrameReading | internal/transfer/chunk.go:101-127 | the fields of a frame read are the big-endian values of the bytes at these offsets |
| Chunks.FrameRoundTrip | internal/transfer/chunk.go:74-127 | a frame is read back as written iff its data is shorter than 2^32 |
| Chunks.ReadIsFrame | internal/transfer/chunk.go:101-127 | whatever is read as a frame re-encodes to the bytes it was read from |
| Chunks.StreamRoundTrip | internal/transfer/chunk.go:72-127 | reading until the end gives exactly the chunks written, in order, and then the plain end |
| Chunks.ReadAllDecomposes | cmd/server/main.go:123-131 | any byte string is the frames of what the read loop gets from it and less than one frame more |
| Chunks.Truncation | cmd/server/main.go:123-131 | cut anywhere, a stream yields exactly the chunks whose frames lie before the cut, and a plain end iff the cut is on a field boundary |
| Chunks.WholeFrames | cmd/server/main.go:123-131 | every cut has a number of whole frames before it |
| Preambles.WriteControlHeader | internal/transfer/session.go:136-142 | appends a zero byte, the identifier, the big-endian digits of total size, chunk size, path count and name length, and the name |
| Preambles.WritePathHello | internal/transfer/session.go:144-150 | appends a one byte, the identifier and the four big-endian digits of the path index |
| Preambles.ReadControlHeader | internal/transfer/session.go:58-82 | reads the header's fields off the front, or tells whether the bytes ran out between two fields |
| Preambles.ReadPathHello | internal/transfer/session.go:99-108 | reads the hello's fields off the front, or tells whether the bytes ran out between two fields |
| Preambles.ReadPreamble | internal/transfer/session.go:152-171 | succeeds iff a whole preamble is there, told by its first byte and, for a header, by the length of the name, and gives the fields that the bytes at the fixed offsets stand for; otherwise gives the error of the place and kind |
| Preambles.ControlLayout | internal/transfer/session.go:38-56 | what a control preamble holds at each offset; its kind byte is 0 |
| Preambles.HelloLayout | internal/transfer/session.go:92-97 | what a hello holds at each offset; its kind byte is 1 |
| Preambles.PreambleReading | internal/transfer/session.go:152-171 | which byte strings begin with a whole preamble, and its fields as values of their bytes |
| Preambles.ControlRoundTrip | internal/transfer/session.go:38-82 | a control header is read back as written iff the scheduler's name is shorter than 2^16 |
| Preambles.HelloRoundTrip | internal/transfer/session.go:92-108 | a hello is always read back as written |
| Preambles.CutPreamble | internal/transfer/session.go:152-171 | a preamble is seen as whole only once all its bytes are there, and then as written |
| Preambles.PathStreamRoundTrip | internal/transfer/session.go:136-171 | from a whole path stream the server gets the same preamble, the same chunks in order with valid checksums, and a plain end |
| Preambles.PathStreamInjective | internal/transfer/session.go:84-171 | two different sessions never put the same bytes on a path |
| Reassembly.Split | internal/transfer/chunk.go:48-70 | the chunks are the slots of the data in order, each with its number, offset and burst; for a positive chunk size chunk i begins at i times that size, all but the last are of that size and the last is not longer or empty; for size 0 and from 1 to 2^32 - 1 bytes there is one chunk, holding the data |
| Reassembly.SplitSizes | internal/transfer/chunk.go:52-69 | the same sizes and offsets for any sequence that is the split of the data |
| Reassembly.SplitTerminates | internal/transfer/chunk.go:52-57 | the loop's sequence of offsets comes to an end iff there is no data or the effective chunk size is positive |
| Reassembly.SplitLoopsForever | internal/transfer/chunk.go:52-57 | with chunk size 0 and 2^32 bytes it never does |
| Reassembly.SplitPartitions | internal/transfer/chunk.go:51-70 | the chunks concatenate to the data, none is empty, all but the last are full, and each begins where the one before ends |
| Reassembly.BoundedCountAgrees | internal/transfer/chunk.go:148-148 | the number of slots computed in 64 bits and converted to a signed integer is the rounded-up quotient iff the sum does not overflow and the quotient fits |
| Reassembly.Reassembler.constructor | internal/transfer/chunk.go:144-155 | a zeroed buffer of the total size and no slot received; for a positive chunk size it is the one stored and the slots are its rounded-up quotient; for 0 and less than 2^32 bytes one slot of the total size |
| Reassembly.CountOfSize | internal/transfer/chunk.go:148-148 | the rounded-up quotient is the number of slots of that size that just cover the length |
| Reassembly.Reassembler.Write | internal/transfer/chunk.go:157-175 | the new state is that of placing the chunk, also for offsets out of range, and the result tells whether nothing remains |
| Reassembly.PlaceGenuine | internal/transfer/chunk.go:161-175 | writing a chunk of the payload adds its slot to the set received and does nothing else, also when it is there already |
| Reassembly.OrderAndRepetitionDoNotMatter | internal/transfer/chunk.go:157-175 | buffer, bitmap and counters are a function of the set of distinct chunks written, not of order or repetition |
| Reassembly.Completion | internal/transfer/chunk.go:177-198 | nothing remains iff all slots are received iff all bytes are, and then the buffer is the payload |
| Reassembly.RemainingCountsUnset | internal/transfer/chunk.go:168-172 | whatever is written, remaining counts the slots not received |
| Bursts.BurstTracker.Write | internal/transfer/burst.go:50-81 | the entry becomes that of one more arrival, the others stay, and the result tells whether the burst is complete |
| Bursts.BurstTracker.Stats | internal/transfer/burst.go:114-124 | a snapshot of a tracked burst, field by field that of its entry, complete iff the bytes received reach those expected; and of no other |
| Bursts.BurstTracker.Expire | internal/transfer/burst.go:126-142 | removes and reports exactly the entries whose last activity is at least the time-to-live ago, each once, each report field by field that of its entry |
| Bursts.BurstTracker.ExpireAll | internal/transfer/burst.go:144-155 | reports every entry once, field by field, and leaves none |
| Bursts.WriteChanges | internal/transfer/burst.go:54-81 | one arrival in the entry's own fields: a failed checksum adds only to the corrupted counts; a new number credits its length to burst and path; a number seen before credits nothing; other bursts and paths stay |
| Bursts.ReportSays | internal/transfer/burst.go:96-155 | what a list of reports says of the entries taken out: each once, each field by field |
| Bursts.RecordExtendsSummary | internal/transfer/burst.go:62-80 | an entry is the closed-form summary of its arrivals: counts, first-arrival bytes, numbers seen, and the same per path |
| Bursts.BurstsDoNotInterfere | internal/transfer/burst.go:57-61 | after any interleaving a burst's entry is that of its own arrivals alone |
| Bursts.SummaryAddsUp | internal/transfer/burst.go:64-79 | bytes, chunks and corrupted counts of every entry are the sums over its paths |
| Bursts.CreditedIsSumOfSeen | internal/transfer/burst.go:75-79 | the bytes received are the sum of the lengths of the numbers seen |
| Bursts.TotalsIgnoreOrder | internal/transfer/burst.go:54-81 | reordering a burst's arrivals changes none of its totals, nor any path's counts of chunks |
| Credit.CreditIgnoresOrderIff | internal/transfer/burst.go:75-79 | reordering a burst's arrivals never changes what any path is credited with iff no chunk with data came uncorrupted over two different paths |
| Credit.NoCopiesNoRace | tools/experiment/README.md:94-112 | under a scheduler that makes no copies the credit of a path does not depend on the order |
| Credit.CreditIsSumOfSeenOn | internal/transfer/burst.go:75-79 | without such a chunk a path's credit is the sum of the lengths of the numbers seen on it |
| Credit.CreditDependsOnOrder | tools/experiment/README.md:103-107 | two copies of a chunk: whichever path brings it first has the credit |
| Bursts.TrackerAgreesWithReassembler | internal/transfer/burst.go:8-16 | after any arrivals of one burst the tracker reports the byte count and the completeness a Reassembler fed the uncorrupted ones would, and never more than the burst's size |
| BurstLog.EveryArrivalExactlyOnce | cmd/server/main.go:288-342 | in every state of every race between paths, sweep loop and shutdown callers, each arrival is in exactly one logged report, report in hand, or tracked entry |
| BurstLog.EveryWriteIsCounted | cmd/server/main.go:301-342 | chunks (and corrupted ones) logged, in hand and tracked add up to the writes so far |
| BurstLog.PathRowsAddUp | cmd/server/main.go:306-321 | whenever no recorder is in the middle of a burst, path rows and burst rows of the log have the same sums |
| BurstLog.LogIsCompleteWhenQuiet | cmd/server/main.go:332-342 | with an empty tracker and recorders at rest the log alone accounts for every write |
| Incarnations.EveryIncarnationIsReportedOnce | internal/transfer/burst.go:126-155 | a burst taken out is reported with the summary of exactly its own arrivals since it was last taken out, and this report is in the log or in one recorder's hands exactly once ever after |
| Incarnations.EveryReportIsAnIncarnation | cmd/server/main.go:301-331 | every report logged or in hand is of one incarnation of the burst it names |
| Incarnations.EveryReportSays | internal/transfer/burst.go:96-112 | over every run each report's expected size and times are those of its incarnation's first and last arrivals, its counts and credits, in all and per path, are theirs, and it is complete iff the credit reaches the expected size |
| BurstRows.EveryRowSays | cmd/server/main.go:301-321 | over every run each row of the burst log says this of one incarnation: for the whole burst with path index -1, or for one of its paths with the path's own counts, credit and completeness, and times in whole milliseconds |
| Incarnations.ReportsAreTakes | cmd/server/main.go:288-342 | the reports logged and in hand are exactly those made so far, each as often as it was made |
| Incarnations.EntryIsItsIncarnation | internal/transfer/burst.go:57-61 | whatever expires in between, a burst is tracked iff it has arrivals since it was last taken out, and its entry is their summary |
| Incarnations.FlushDoesNothingIff | cmd/server/main.go:332-342 | a flush does nothing iff nothing is tracked |
| Incarnations.FlushDoesNothingInRun | cmd/server/main.go:332-342 | over a run, any flush does nothing iff no burst has had an arrival since it was last taken out |
| Incarnations.SecondFlushDoesNothing | cmd/server/main.go:332-342 | in particular a second flush, or a sweep after one, changes nothing if no chunk has arrived in between |
| Incarnations.SecondFlushCanReport | cmd/server/main.go:332-335 | for every chunk there is a run in which it arrives between two flushes and the second reports its burst |
| Continuous.RunAgrees | cmd/server/main.go:132-150 | in every run of a continuous session, however connections, sweeps, shutdowns and log writes interleave, the session's tracker is the log's, and the arrivals on a path are the chunks its connection has read, corrupted iff their checksum is not that of their data |
| Continuous.TrackerAccountsForConnections | cmd/server/main.go:132-150 | at every moment of every run, the chunks and the corrupted chunks logged, in hand and tracked on a path are exactly those its connection has read, and failed |
| Continuous.LogAccountsForConnections | cmd/server/main.go:301-342 | when all is quiet the log's rows of a path alone say so |
| Continuous.ContinuousSessionAddsUp | cmd/server/main.go:306-321 | once a continuous session's streams are read, flushed and logged, the log's rows of a path count exactly the chunks the client put on it over any bursts, none of them as corrupted, and its bytes if no chunk was sent twice |
| PathLog.EveryPathIsCounted | cmd/server/main.go:314-320 | at every moment of every run of the log, what is logged, in hand and tracked on a path counts its arrivals |
| PathLog.PathChunksAddUp | cmd/server/main.go:314-320 | when all is quiet the rows of a path count the chunks, or the corrupted ones, that arrived on it |
| PathLog.PathBytesAddUp | cmd/server/main.go:314-320 | and their bytes, if nothing was repeated or corrupted |
| BurstLog.StepKeepsGenuine | internal/transfer/burst.go:96-112 | every report and every entry, wherever it is, is the summary of a gapless stretch of the arrivals of the burst it names; an entry's stretch reaches up to the present |
| BurstLog.PositionsAre | internal/transfer/burst.go:57-61 | such a stretch is in order, names arrivals of the burst only, and misses none between its bounds |
| Schedulers.RoundRobin.Assign | internal/scheduler/roundrobin.go:7-14 | the path of the counter's residue, and the counter one on, modulo 2^64 |
| Schedulers.Redundant.Assign | internal/scheduler/redundant.go:9-15 | all paths in order |
| Schedulers.RttAware.Assign | internal/scheduler/rtt_aware.go:13-31 | the leftmost path of least positive round-trip time if any is measured, else the fallback's choice; the fallback's counter moves only then |
| Schedulers.BestExists | internal/scheduler/rtt_aware.go:19-26 | as soon as any path is measured there is a leftmost best one |
| Schedulers.AnswerIsDetermined | internal/scheduler/rtt_aware.go:13-31 | a scheduler's answer and next counter are a function of its counter and what it is told |
| Schedulers.AnswerSays | internal/scheduler/rtt_aware.go:13-31 | what each scheduler answers, written out: all paths; the path of the counter's residue; or the leftmost of least positive round-trip time, and the residue only if none is measured |
| Schedulers.AnswersAreValid | cmd/client/main.go:421-423 | every answer names existing paths: exactly one, or all of them in order |
| Schedulers.RoundRobinRotates | internal/scheduler/roundrobin.go:7-14 | the choices of any run of the round-robin scheduler are consecutive turns, whatever round-trip times it is told |
| Schedulers.RoundRobinIsFair | cmd/client/main.go:417-424 | in every contiguous window of the calls to a new scheduler, across bursts too, each path is chosen the floor or the ceiling of its share |
| Schedulers.WindowIsFair | internal/scheduler/roundrobin.go:7-14 | every window of turns without a wrap, from any counter value, gives each path the floor or the ceiling of its share |
| Schedulers.WrapIsUnfair | internal/scheduler/roundrobin.go:11-12 | where the counter wraps a window is unfair unless the number of paths divides 2^64 |
| Schedulers.FairEverywhere | internal/scheduler/roundrobin.go:11-13 | all windows are fair iff the number of paths divides 2^64 |
| Schedulers.FallbackRotates | internal/scheduler/rtt_aware.go:27-29 | over any run mixing measured and unmeasured moments the fallback's choices are consecutive turns |
| Schedulers.FallbackIsFair | internal/scheduler/rtt_aware.go:7-11 | so each path has the floor or the ceiling of its share of them |

## Left out

- QUIC, UDP and TLS: paths are reliable ordered byte streams with a FIN; a connection can end at any moment (`Abort`), and the bytes of frame headers and preambles are not damaged.
- Liveness and time: timeouts are steps that may always happen, clock readings are arbitrary, and nothing is claimed about progress.
- `internal/ccmodules`, `internal/metrics` output, the progress display, the delivery log and round-trip sampling: display and measurement only; the schedulers get arbitrary round-trip times.
- Flags, name registries of schedulers and congestion modules, random payloads, identifiers and burst sizes: taken as arbitrary inputs.
- The whole-transfer state machine is of one-shot sessions. `Continuous` joins the connections of a continuous session, its tracker and its log in one machine; what the network has delivered to each connection enters it as the chunks read.
- The burst log's CSV text, its session and role columns and the message logged for an incomplete burst (internal/metrics): `BurstRows` models a row's other fields.
- Crash semantics: a panic stops the model; what the Go runtime does to other sessions of the process is not modelled.
- The int conversions of lengths and offsets in `Split` (internal/transfer/chunk.go:57-58) are unbounded here; they differ only for slices within 2^32 of 2^63 bytes.
- Bursts.BurstTracker.Write: its counters are unbounded, where the source's wrap at 64 bits, and entries are values in a map rather than shared pointers, which only this method and the expiry methods reach.
- Client.PathConn.WriteQueue: every write succeeds; failed and partial writes are steps of Transfer.
- Client.MultipathClient.SendChunks: writers run one after another and queues are unbounded; Transfer has them interleave with a capacity of 64, and ClientRuns shows that the same result is reached there.
- Server.ServerSession.Start: totals are refused from 2^63 on, as the language demands of every allocation; the lower limits of a platform's memory are not modelled.
- Client.PathConn.Drain: the read deadline is not modelled; giving up is a step of Transfer.
- Server.ServerSession.ReadPath: describes a path that no other path interrupts; the interleavings are those of Sessions and Transfer.
- Streams.Reader.ReadFull: the only failure is the end of the stream; other read errors are the step Abort of Transfer.
- A failing preamble write ends the client program (cmd/client/main.go:98-100) and is not part of a transfer.
