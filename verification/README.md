# Replay-memory bursts, verified

A device server stores the signals of a burst in the replay memory of an FPGA, plays and
records them in real time from that memory, and hands the recordings back. A client drives
several such servers and starts them at a common time. This project models both and proves that
what the user configured is what is played, and that what arrived is what is collected.

| module | what it holds |
|---|---|
| `Samples`, `ReplayDevice` | byte memory, samples, and the hardware's record and play windows |
| `StreamingConfig`, `Schedule`, `SampleCounts` | word alignment, validation, the real-time schedule, the sample counts and their machine widths |
| `BlockLayout`, `BlockOffsetTracking` | the layout of recorded blocks, and the allocator with its replay cursor |
| `ReplayBlockConfiguration` | the TX and RX buffers in one memory, and the commands to the ports |
| `DuplexGraph` | the transfer loops between host and memory |
| `StreamingThreads`, `StreamingProofs` | the two streaming threads as a transition system, and its invariants |
| `BurstPipeline` | upload, streaming and download |
| `BurstAdmission` | which accepted configurations the memory takes, and the word alignment of the commands |
| `BurstOutcome`, `UsrpServer` | what a burst owes its caller; the server object |
| `ServerRuns` | the server over arbitrary sequences of calls |
| `TimedFlags`, `SyncSystem` | the self-clearing flag and the client that synchronises devices |

The main results, and where they are stated:

- **What is requested is played.** `AllPlayed` (`UsrpServer.Usrp.Execute`): each stream of each
  accepted TX request plays the user's signal as often as asked, and if it is asked once, the
  signal and fewer than eight zeros.
- **What arrives is collected.** `AllCollected` (`UsrpServer.Usrp.Collect`): one signal per
  configuration and repetition, in order, each cut from the capture of its configuration at the
  start of its repetition.
- **No recording is handed out twice.** Over every sequence of calls to a new server
  (`ServerRuns.RunServer`): a collect that succeeds brings all captures of the last burst, if the RX
  queue is still that of the burst, and nothing, if they have been collected. Whatever is done to
  the queue in between, all collects after a burst together bring no more signals than it recorded
  repetitions.
- **A burst fails only for a reason, and for every reason.** What the device answers is an input:
  the amounts of every transfer, acknowledgements, errors of the radio, samples that stray in and
  samples in the air. With clean answers an upload passes if and only if every TX entry is
  admitted, the threads end without an error if and only if the radio reports none and every RX
  entry is admitted (`BurstOutcome.BurstIffAdmitted`), and the collect after such a burst succeeds
  if and only if the device has no failure to report for any download, and otherwise fails for the
  first it reports (`UsrpServer.BurstThenCollect`). What is captured is what was in the air.
- **A configuration is accepted if and only if it should be**: when, padded, it extends the queue to
  one whose transmissions are a guard apart (`Schedule.AcceptedIffQueue`, `AcceptTx`, `AcceptRx`).
- **Accepted queues keep their distance.** A server whose rates and stream counts are set with empty
  queues only has at all times queues to which the lemmas of `Schedule` apply
  (`ServerRuns.RunServer`, `Scheduled`).
- **Which queues stream is known beforehand.** Validation does not look at the memory, nor, for RX, at
  the number of streams. Without a fault of the hardware an upload passes, and a receive thread ends without
  an error, if and only if every entry of the queue is admitted, a condition on the queue, the
  stream count and the memory size (`BurstOutcome.BurstIffAdmitted`,
  `BurstAdmission.CanStreamIffAdmitted`).
- **The threads do not interfere.** For every interleaving of their steps
  (`StreamingProofs.RunKeepsInv`, `StreamsConfined`, `InterleavingsPlayTheSame`,
  `InterleavingsStoreTheSame`).
- **The allocator tiles memory and its two-level cursor is a flat index**
  (`BlockLayout.RegionsTile`, `BlockOffsetTracking.RecordRunsTile`, `CursorWindow`).
- **Execution is always justified.** In the log of every run of the client, before each execute call
  every client was given the clock source for the present clients, after that the clocks of all of
  them were compared within the time-out and found close, and all were asked their times, since when nothing
  but execute calls was made; the base time is the largest of these plus the offset
  (`SyncSystem.ExecutedAfter`, of the property `Safe` that every method of `System` keeps). The
  times are those that the clocks of all clients, each its own, showed; and several clients never
  run on their internal clocks. Execution is refused only for an error that a client has answered
  with, for want of clients, for the request of an internal clock for several, or after four looks
  that found the clocks apart.

What the original does differently from what one may expect, each with its exact condition:

- The word-aligned RX windows of every accepted queue are disjoint if and only if the guard lasts
  at least seven samples (`Schedule.RxDisjointIffGuardLongEnough`), because validation counts
  unaligned samples.
- Validation accepts configurations that the receive thread then refuses. It refuses an entry if
  and only if no stream count is set, its period is not a multiple of eight, it asks for
  repetitions on several streams, its block does not fit behind those of the entries before it, or
  the recording ports cannot be emptied (`BurstAdmission.RxRefusal`). There is an accepted
  configuration for each of the three conditions of its own (`UnalignedPeriodIsRefused`,
  `RepetitionsOnStreamsAreRefused`, `TooLongIsRefused`). An upload is refused in the same way when
  the stream count has changed since validation or the block does not fit
  (`AcceptedUploadIsRefused`). All this counts without bounds. The 64-bit arithmetic of the original
  comes to the same for entries whose period times repetitions is below 2^60
  (`QueueAdmittedAsMachine`), and not beyond: it grants the entry of `SampleCounts.WrappedGrant`.
- Once memory is granted, the 32-bit totals are exact if and only if period times repetitions is
  below 2^60; `SampleCounts.WrappedGrant` is a valid configuration for which they are not.
- A block recorded with no repetition still answers one replay request, so requests and
  repetitions agree if and only if there is no such block (`BlockLayout.RequestsAreRepetitions`).
- `clearRecordingBuffer` does not look again after its third restart, so it may refuse ports that
  are empty by then (`ReplayBlockConfiguration.RefusedAlthoughEmpty`).
- When the RX queue is changed between a burst and its collect, a collect that succeeds leaves
  recordings behind, which a later one can bring, if and only if it asks for fewer repetitions than
  were recorded (`ServerRuns.CollectAnotherQueue`).
- A fan-out calls every client if and only if no call before the last ends in another exception than
  a `RemoteError`, such as a lost connection (`SyncSystem.CallsAllIff`).
- After a replay request was refused, the cursor is past the last block, and the next request or
  offset query of the original indexes past the end of a vector. The model answers `OutOfRange`.
  Collecting, configuring another capture and collecting twice without a burst gets there
  (`UsrpServer.BurstThenCollects`).
- A failed `addUsrp` still clears the synchronisation flag, and executing without clients raises
  an error (`SyncSystem.System.AddUsrp`, `CalculateBaseTimeSec`).

Samples are the four bytes they have on the wire, and memory is bytes, because a quarter of the
memory need not be a multiple of the sample size. Times and rates are reals. What the hardware and
remote devices decide (how many samples a transfer moves, stray samples at a recording port, clock
readings, errors) is an input of every operation that depends on it. Only the order in which the
threads and their streams move is left open.

## Model

| member | source | states |
|---|---|---|
| Samples.CyclicIsRepeat | uhd_wrapper/lib/usrp.cpp:98-103 | a window played round and round, a whole number of turns, gives the signal repeated that often |
| StreamingConfig.NextMultipleOfWordSize | uhd_wrapper/lib/config.cpp:54-62 | the result is a multiple of eight, at least the count and less than eight above it |
| StreamingConfig.RoundingIsLeast | uhd_wrapper/lib/config.cpp:54-62 | rounding gives the least large enough multiple of eight; it is monotone, idempotent, and the identity exactly on multiples |
| StreamingConfig.PaddedLengthWithinLimit | uhd_wrapper/lib/usrp.hpp:64 | a signal obeys the length cap before padding if and only if it does after it |
| StreamingConfig.MimoBuffer.ResizeSignal | uhd_wrapper/lib/config.cpp:209-213 | every channel is cut, or extended with zeros, to the length; no channel is lost |
| StreamingConfig.MimoBuffer.ExtendToWordSize | uhd_wrapper/lib/config.cpp:215-217 | every channel is resized to the word-aligned length of the first |
| StreamingConfig.MimoBuffer.ShortenSignal | uhd_wrapper/lib/config.cpp:219-223 | refused, without change, exactly when the first channel is too short; otherwise every channel is resized |
| StreamingConfig.ShortenUndoesPad | uhd_wrapper/lib/config.cpp:209-227 | padding and then shortening to the original length restores the signal |
| StreamingConfig.AssertValidTxSignal | uhd_wrapper/lib/config.cpp:137-159 | passes exactly for as many channels as streams, of equal and legal length; otherwise the error is that of the first defect |
| StreamingConfig.AssertValidTxStreamingConfig | uhd_wrapper/lib/config.cpp:87-107 | passes exactly when the guard after the predecessor is kept, something is sent, and a repeated signal is word-aligned; each error has its defect |
| StreamingConfig.AssertValidRxStreamingConfig | uhd_wrapper/lib/config.cpp:108-135 | passes exactly when the configuration is valid by itself and keeps the guard after its predecessor; each error has its defect |
| StreamingConfig.AcceptedTxIsValid | uhd_wrapper/lib/usrp.cpp:213-223 | what passes both TX validations is, once padded, a word-aligned entry within the length cap |
| StreamingConfig.PlayedFromUserSignal | uhd_wrapper/lib/usrp.cpp:90-103 | the queued signal played for its repetitions is the user's signal repeated, or the signal and fewer than eight zeros if sent once |
| StreamingConfig.PackagesCover | uhd_wrapper/lib/config.cpp:43-52 | full packets and a last, non-empty one make up the signal exactly |
| Schedule.AcceptTx | uhd_wrapper/lib/usrp.cpp:213-223 | a request is accepted if and only if its signal suits the streams, something whole is sent and the guard after the last entry is kept; it is then appended, padded, and the queue stays valid; otherwise the error is that of the first defect |
| Schedule.AcceptedIffQueue | uhd_wrapper/lib/usrp.cpp:213-223 | a request is accepted if and only if, padded, it extends the queue to a valid one, and needs no padding if it is repeated |
| Schedule.TxTransmissionsApart | uhd_wrapper/lib/config.cpp:87-98 | in an accepted queue every padded, repeated transmission ends a guard before any later one starts |
| Schedule.AcceptRx | uhd_wrapper/lib/usrp.cpp:225-232 | a configuration is accepted if and only if it is valid by itself and keeps the guard after the last entry; it is then appended and the queue stays valid |
| Schedule.AlignedExcess | uhd_wrapper/lib/config.cpp:233-250 | fewer than eight samples more are streamed than validation counts, and none more with repetitions or a period |
| Schedule.RxWindowsApart | uhd_wrapper/lib/config.cpp:126-134 | in an accepted queue the streamed windows of any two entries are apart by the guard less seven samples |
| Schedule.RxDisjointIffGuardLongEnough | uhd_wrapper/lib/config.cpp:126-134 | the streamed windows of all accepted queues are disjoint if and only if the guard lasts seven samples |
| SampleCounts.SampleConservation | uhd_wrapper/lib/config.cpp:233-243 | the number of samples to ask the radio for exists exactly when the period is aligned; it is then the number reserved per stream, and the allocator's period check cannot fire |
| SampleCounts.GrantedTotalsAreExact | uhd_wrapper/lib/config.cpp:233-250 | of a granted configuration the machine's totals are exact if and only if period times repetitions is below 2^60 |
| SampleCounts.GrantIsExact | uhd_wrapper/lib/replay_config.cpp:43-44 | below that bound the allocator's 64-bit test passes if and only if the block fits |
| SampleCounts.WrappedGrant | uhd_wrapper/lib/replay_config.cpp:43-44 | a valid configuration beyond the bound whose byte count wraps to zero and is granted |
| BlockLayout.RegionsDisjoint | uhd_wrapper/lib/replay_config.cpp:68-82 | regions of different blocks or streams do not overlap |
| BlockLayout.RegionsTile | uhd_wrapper/lib/replay_config.cpp:68-92 | every sample below the end belongs to exactly one block and stream |
| BlockLayout.NothingAboveEnd | uhd_wrapper/lib/replay_config.cpp:84-86 | no region reaches the end |
| BlockLayout.RegionPrefix | uhd_wrapper/lib/replay_config.cpp:74-82 | later recordings move no earlier region |
| BlockLayout.RequestsAreRepetitions | uhd_wrapper/lib/replay_config.cpp:49-62 | requests answered equal repetitions recorded if and only if no block has zero repetitions |
| BlockLayout.WindowUnique | uhd_wrapper/lib/replay_config.cpp:49-62 | the number of a request determines its block and repetition |
| BlockLayout.ReplayFollowsRecord | uhd_wrapper/lib/replay_config.cpp:94-105 | a repetition is replayed from the record offset its block had when it was newest, plus its periods, whatever was recorded since |
| BlockLayout.WindowInsideRegion | uhd_wrapper/lib/replay_config.cpp:94-105 | the replay window lies inside the recorded region if and only if something was recorded or nothing is replayed |
| BlockLayout.WindowsApart | uhd_wrapper/lib/replay_config.cpp:94-105 | windows of different blocks, repetitions or streams never overlap |
| BlockLayout.RequestsApart | uhd_wrapper/lib/replay_config.cpp:49-62 | different replay requests, or different streams, read disjoint samples |
| BlockOffsetTracking.AcceptedRecordIsSound | uhd_wrapper/lib/replay_config.cpp:42-46 | an accepted block moves the end by its size and keeps it strictly below the memory size |
| BlockOffsetTracking.RecordRunsTile | uhd_wrapper/lib/replay_config.cpp:31-47 | over every run of accepted and refused requests the recorded blocks stay below the memory size and tile what they use |
| BlockOffsetTracking.CursorAtEnd | uhd_wrapper/lib/replay_config.cpp:52-61 | block and repetition are the last ones exactly when every request has been answered |
| BlockOffsetTracking.CursorWindow | uhd_wrapper/lib/replay_config.cpp:94-105 | the offset computed from block and repetition is that of the request's flat number |
| BlockOffsetTracking.BlockOffsetTracker.Reset | uhd_wrapper/lib/replay_config.cpp:16-20 | blocks and cursor are forgotten, the stream count is kept |
| BlockOffsetTracking.BlockOffsetTracker.RecordNewBlock | uhd_wrapper/lib/replay_config.cpp:31-47 | appends the block, or refuses it with the first error that applies and changes nothing; keeps what is recorded sound |
| BlockOffsetTracking.BlockOffsetTracker.ReplayNextBlock | uhd_wrapper/lib/replay_config.cpp:49-62 | the two-level cursor advances a flat index by one, and refuses exactly when all requests have been answered |
| BlockOffsetTracking.BlockOffsetTracker.RecordOffset | uhd_wrapper/lib/replay_config.cpp:68-72 | the byte offset of the stream's region in the newest block |
| BlockOffsetTracking.BlockOffsetTracker.CurrentRecordBlockStart | uhd_wrapper/lib/replay_config.cpp:74-82 | all samples of the blocks before the newest |
| BlockOffsetTracking.BlockOffsetTracker.CurrentRecordBlockEnd | uhd_wrapper/lib/replay_config.cpp:84-86 | all samples of all blocks |
| BlockOffsetTracking.BlockOffsetTracker.ReplayOffset | uhd_wrapper/lib/replay_config.cpp:94-105 | the byte offset of the window of the request answered last, found by its flat number |
| ReplayDevice.DeliverAllFrame | uhd_wrapper/lib/replay_config.hpp:7-19 | whatever arrives at a recording port stays within its window |
| ReplayDevice.DeliverAllFills | uhd_wrapper/lib/replay_config.hpp:7-19 | samples that fit a window are stored in it in the order in which they arrive |
| ReplayDevice.DeliverAllKeeps | uhd_wrapper/lib/replay_config.hpp:7-19 | what another port has recorded in a window apart stays |
| ReplayDevice.PlaysCyclic | uhd_wrapper/lib/usrp.cpp:98-100 | a port plays its window's contents and wraps around |
| ReplayBlockConfiguration.BuffersSplitMemory | uhd_wrapper/lib/replay_config.cpp:114-124 | TX and RX buffer are adjacent and within the memory, whose size need not be divisible by four; what they leave is exactly the remainder |
| ReplayBlockConfiguration.StraysKeepArmed | uhd_wrapper/lib/replay_config.cpp:175-195 | samples that arrive before recording is meant to begin stay in the newest block |
| ReplayBlockConfiguration.ReplayBlockConfig.constructor | uhd_wrapper/lib/replay_config.cpp:107-112 | two empty trackers, of a quarter and of three quarters of the memory |
| ReplayBlockConfiguration.ReplayBlockConfig.SetStreamCount | uhd_wrapper/lib/replay_config.cpp:126-132 | both trackers get their count, nothing else changes |
| ReplayBlockConfiguration.ReplayBlockConfig.Reset | uhd_wrapper/lib/replay_config.cpp:134-137 | both trackers are empty; memory and ports are not touched |
| ReplayBlockConfiguration.ReplayBlockConfig.RecordPorts | uhd_wrapper/lib/replay_config.cpp:143-144 | each stream's port records the stream's region of the newest block; nothing outside that block changes |
| ReplayBlockConfiguration.ReplayBlockConfig.ClearRecordingBuffer | uhd_wrapper/lib/replay_config.cpp:175-195 | passes only if all ports are empty, refuses only after three looks each found a port that was not, and only if samples strayed in after both restarts between them |
| ReplayBlockConfiguration.RefusedAlthoughEmpty | uhd_wrapper/lib/replay_config.cpp:181-194 | samples that stray in after the first two restarts make all three looks find something, while the last restart leaves all ports empty |
| ReplayBlockConfiguration.ReplayBlockConfig.ConfigUpload | uhd_wrapper/lib/replay_config.cpp:139-146 | reserves a TX block and has it recorded, or changes nothing; the RX side is not touched |
| ReplayBlockConfiguration.ReplayBlockConfig.ConfigReceive | uhd_wrapper/lib/replay_config.cpp:156-165 | reserves all repetitions of a capture in the RX buffer and has them recorded, or changes nothing |
| ReplayBlockConfiguration.ReplayBlockConfig.PlayPorts | uhd_wrapper/lib/replay_config.cpp:152-153 | each stream's port plays the stream's window of the request answered last; other ports and the memory stay |
| ReplayBlockConfiguration.ReplayBlockConfig.ConfigTransmit | uhd_wrapper/lib/replay_config.cpp:148-154 | cues the next uploaded block on every TX stream, or refuses and leaves the device alone |
| ReplayBlockConfiguration.ReplayBlockConfig.ConfigDownload | uhd_wrapper/lib/replay_config.cpp:167-173 | cues the next captured window on every RX stream, or refuses and leaves the device alone |
| DuplexGraph.ChainExtends | uhd_wrapper/lib/full_duplex_rfnoc_graph.cpp:94-99 | one more transfer of any legal size keeps the transfers in order, without gaps and within the signal |
| DuplexGraph.GreedyChain | uhd_wrapper/lib/config.cpp:43-52 | a device that takes all it is offered is sent the computed number of packets, the last one of the computed length |
| DuplexGraph.PositiveGrantsSuffice | uhd_wrapper/lib/full_duplex_rfnoc_graph.cpp:89-100 | a device that moves something in every transfer is done after at most as many transfers as samples |
| DuplexGraph.HealthyUpload | uhd_wrapper/lib/full_duplex_rfnoc_graph.cpp:89-120 | a device that takes something every time and acknowledges causes no failure |
| DuplexGraph.HealthyDownload | uhd_wrapper/lib/full_duplex_rfnoc_graph.cpp:279-293 | a device that gives something every time, reports no error and marks the end causes no failure |
| DuplexGraph.SendDelivers | uhd_wrapper/lib/full_duplex_rfnoc_graph.cpp:90-95 | one send moves the same stretch of every channel into that channel's window only |
| DuplexGraph.UploadStep | uhd_wrapper/lib/full_duplex_rfnoc_graph.cpp:89-100 | a send of any size continues the upload of every channel exactly where it stopped |
| DuplexGraph.DownloadStep | uhd_wrapper/lib/full_duplex_rfnoc_graph.cpp:279-291 | a receive of any size continues the result of every channel exactly where it stopped |
| DuplexGraph.RfNocFullDuplexGraph.ConnectForStreaming | uhd_wrapper/lib/full_duplex_rfnoc_graph.cpp:126-132 | refuses another number of TX streams than was uploaded; otherwise sets the number of RX streams |
| DuplexGraph.RfNocFullDuplexGraph.Upload | uhd_wrapper/lib/full_duplex_rfnoc_graph.cpp:69-120 | every channel's samples reach its window once and in order, no transfer exceeds a packet or passes the end; it fails exactly as the device answers: when the amounts do not suffice, or without an acknowledgement |
| DuplexGraph.RfNocFullDuplexGraph.Download | uhd_wrapper/lib/full_duplex_rfnoc_graph.cpp:261-296 | returns what every port plays, transfer by transfer without gap, or exactly the first failure the device answers with |
| StreamingProofs.TxConfigureCues | uhd_wrapper/lib/usrp.cpp:93-97 | cueing the next configuration points every port at the memory that holds its own uploaded signal |
| StreamingProofs.TxPlayKeepsInv | uhd_wrapper/lib/usrp.cpp:98-103 | each sample played continues the queued signal, and keeps the invariant |
| StreamingProofs.RxConfigureKeepsInv | uhd_wrapper/lib/usrp.cpp:114-117 | reserving a capture, refused or not, keeps uploaded signals and earlier captures |
| StreamingProofs.RxDeliverKeepsInv | uhd_wrapper/lib/usrp.cpp:129-131 | each sample that arrives is stored behind those before it, and harms nothing else in memory |
| StreamingProofs.StepKeepsInv | uhd_wrapper/lib/usrp.cpp:90-141 | every step of either thread keeps the invariant of both |
| StreamingProofs.RunKeepsInv | uhd_wrapper/lib/usrp.cpp:90-141 | the invariant holds at every moment of every interleaving |
| StreamingProofs.StreamsConfined | uhd_wrapper/lib/replay_config.cpp:114-124 | at every moment, the ports of a streaming TX thread play inside the TX buffer and those of a streaming RX thread record inside the RX buffer, both in memory |
| StreamingProofs.PlayedIsQueued | uhd_wrapper/lib/usrp.cpp:90-109 | a transmit thread that does not fail plays every queued signal as often as asked, whatever the other thread does |
| StreamingProofs.CapturedIsStored | uhd_wrapper/lib/usrp.cpp:110-137 | after a receive thread that does not fail, memory holds all that arrived for every configuration and stream |
| StreamingProofs.InterleavingsPlayTheSame | uhd_wrapper/lib/usrp.cpp:139-140 | two runs of a burst play the same, however their threads interleave |
| StreamingProofs.InterleavingsStoreTheSame | uhd_wrapper/lib/usrp.cpp:139-140 | if the same samples arrive, two runs store the same at the same addresses |
| BurstPipeline.UploadExtends | uhd_wrapper/lib/usrp.cpp:66-72 | uploading one more signal leaves those uploaded before it intact |
| BurstPipeline.UploadOne | uhd_wrapper/lib/usrp.cpp:66-72 | one queued signal is reserved, recorded and stored, next to those before it, unless it is refused or the device answers with a failure |
| BurstPipeline.PerformUpload | uhd_wrapper/lib/usrp.cpp:64-73 | if it passes, the TX buffer holds every queued signal at its own place; otherwise it stopped at the first signal that was refused or for which the device answered with a failure |
| BurstPipeline.TransmitStep | uhd_wrapper/lib/usrp.cpp:93-104 | a step of the transmit thread is a step of the transition system that the radio's answers allow, and brings the thread nearer its end |
| BurstPipeline.ReceiveStep | uhd_wrapper/lib/usrp.cpp:113-132 | a step of the receive thread is a step of the transition system that the radio's answers allow, and brings the thread nearer its end |
| BurstPipeline.RunThreads | uhd_wrapper/lib/usrp.cpp:90-141 | both threads end, and what they did is a run of the transition system that the radio's answers allow |
| BurstPipeline.CuedIsPlayable | uhd_wrapper/lib/replay_config.cpp:167-173 | every window cued for a repetition lies in memory |
| BurstPipeline.RepetitionPlays | uhd_wrapper/lib/usrp.cpp:148-151 | a cued window plays the samples of its own repetition from the capture of its own configuration |
| BurstPipeline.ExpectedAt | uhd_wrapper/lib/usrp.cpp:147-153 | the flat number of a download names its configuration and repetition |
| BurstPipeline.DownloadIsExpected | uhd_wrapper/lib/usrp.cpp:149-151 | a downloaded and shortened signal is the user's cut of the capture at the start of the repetition |
| BurstPipeline.RefusedFairly | uhd_wrapper/lib/replay_config.cpp:49-62 | the cursor refuses no download of a repetition that was captured and not yet fetched |
| BurstPipeline.DownloadOne | uhd_wrapper/lib/usrp.cpp:149-151 | one download moves the cursor by one and, if it succeeds, brings that repetition; it fails exactly if the cursor refuses, a window is not in memory, or the device answers with a failure, and of a captured repetition only for the last reason |
| BurstPipeline.ReportedIsNotClean | uhd_wrapper/lib/usrp.cpp:143-154 | a failure of the device is reported only if an answer for one of the downloads stands for one |
| BurstPipeline.DownloadConfig | uhd_wrapper/lib/usrp.cpp:148-152 | all repetitions of one configuration follow what was received before, in order |
| BurstPipeline.PerformDownload | uhd_wrapper/lib/usrp.cpp:143-154 | one signal per configuration and repetition, each the expected one; nothing comes from a cursor that has passed the end |
| BurstAdmission.RxRefusal | uhd_wrapper/lib/usrp.cpp:115-131 | the receive thread refuses an entry if and only if it is not admitted or the recording ports cannot be emptied |
| BurstAdmission.CapturedIsAdmitted | uhd_wrapper/lib/replay_config.cpp:156-165 | in every run only admitted entries begin to be captured |
| BurstAdmission.StreamsIffAdmitted | uhd_wrapper/lib/usrp.cpp:110-137 | in every run without a fault of the hardware the receive thread ends without error if and only if all entries are admitted; otherwise it stops at the first that is not |
| BurstAdmission.RunsToEnd | uhd_wrapper/lib/usrp.cpp:110-137 | every run without a fault of the hardware can go on without one until the receive thread is done |
| BurstAdmission.CanStreamIffAdmitted | uhd_wrapper/lib/usrp.cpp:110-137 | after an upload some run captures the whole queue if and only if all entries are admitted |
| BurstAdmission.UnalignedPeriodIsRefused | uhd_wrapper/lib/config.cpp:115-124 | a single repetition with period nine is accepted, and admitted on no device |
| BurstAdmission.RepetitionsOnStreamsAreRefused | uhd_wrapper/lib/replay_config.cpp:39-40 | two repetitions are accepted whatever the stream count, and admitted on one stream only |
| BurstAdmission.TooLongIsRefused | uhd_wrapper/lib/replay_config.cpp:43-44 | for every memory of up to 2^34 bytes there is an accepted capture, with 32-bit fields, that does not fit |
| BurstAdmission.AdmitsAsMachine | uhd_wrapper/lib/replay_config.cpp:34-44 | behind entries that fit, the original's test admits an entry within the bounds if and only if it is admitted |
| BurstAdmission.QueueAdmittedAsMachine | uhd_wrapper/lib/replay_config.cpp:34-44 | of a queue within the bounds the original admits all entries if and only if all are admitted |
| BurstAdmission.AcceptedUploadIsRefused | uhd_wrapper/lib/usrp.cpp:213-223 | eight zeros on one stream are accepted, fit exactly from 132 bytes of memory on, and are never admitted once there are two streams |
| BurstAdmission.RefusedIsNotAdmitted | uhd_wrapper/lib/replay_config.cpp:139-146 | a queue whose upload is refused, and not because of the hardware, is not admitted |
| BurstAdmission.TxNeverRefused | uhd_wrapper/lib/usrp.cpp:90-109 | after an upload the transmit thread fails only by a fault of the radio |
| BurstAdmission.RunAsTold | uhd_wrapper/lib/usrp.cpp:90-137 | at every moment of every run a thread has failed only as the radio answered or as admission has it, has passed only configurations for which the radio reported no error, and has captured what was in the air |
| BurstAdmission.EndsAsTold | uhd_wrapper/lib/usrp.cpp:90-137 | the transmit thread ends without error if and only if the radio reports none, the receive thread if and only if the radio reports none and every entry is admitted, unless samples keep straying in |
| BurstAdmission.CaptureAligned | uhd_wrapper/lib/config.cpp:233-243 | a valid capture takes whole words if and only if its period is aligned |
| BurstAdmission.RepetitionAligned | uhd_wrapper/lib/replay_config.cpp:167-173 | what a download plays starts and ends at whole words of the RX buffer |
| BurstAdmission.WindowsAligned | uhd_wrapper/lib/replay_config.cpp:139-165 | in every run, what a streaming thread plays or records starts and ends at whole words of its buffer |
| BurstOutcome.BurstIffAdmitted | uhd_wrapper/lib/usrp.cpp:277-284 | with clean answers of the device an upload passes if and only if every TX entry is admitted, the transmit thread ends without error if and only if the radio reports none, the receive thread if and only if, besides, every RX entry is admitted, and what is captured was in the air |
| BurstOutcome.QueuePlaysRequests | uhd_wrapper/lib/usrp.cpp:90-109 | in every run the user's requests, before padding, are what is played |
| BurstOutcome.RunStreams | uhd_wrapper/lib/usrp.cpp:90-141 | what a finished run leaves: requests played unless TX failed, captures stored and the cursor at the start unless RX failed |
| BurstOutcome.PerformStreaming | uhd_wrapper/lib/usrp.cpp:76-141 | after an upload both threads run to their ends and leave what `RunStreams` says |
| BurstOutcome.PerformBurst | uhd_wrapper/lib/usrp.cpp:277-284 | requests are played and captures recorded for the present queues, whatever bursts came before; what happened is a run of the transition system |
| BurstOutcome.DownloadBurst | uhd_wrapper/lib/usrp.cpp:143-154 | brings the captures of the queue executed last, or fails for the first failure the device answers with; once all are fetched, further downloads bring nothing |
| UsrpServer.Usrp.SetRfConfig | uhd_wrapper/lib/usrp.cpp:207-211 | accepts one to four streams each way, if there are ports for them, and tells the trackers, whose blocks and cursors stay; otherwise nothing changes |
| UsrpServer.Usrp.SetTxConfig | uhd_wrapper/lib/usrp.cpp:213-223 | the queue grows by the padded request, exactly when validation passes; otherwise it stays |
| UsrpServer.Usrp.SetRxConfig | uhd_wrapper/lib/usrp.cpp:225-232 | the queue grows by the request, exactly when validation passes; otherwise it stays |
| UsrpServer.Usrp.Execute | uhd_wrapper/lib/usrp.cpp:277-284 | it is a run of the transition system; unless a thread fails all requests are played and all captures recorded; queues are kept; errors of threads wait for the collect |
| UsrpServer.Usrp.PerformDownload | uhd_wrapper/lib/usrp.cpp:143-154 | all captures of the queue executed last, or nothing old |
| UsrpServer.Usrp.Collect | uhd_wrapper/lib/usrp.cpp:299-311 | raises a thread's error without downloading and keeps the queues; otherwise returns all captures in order and empties the queues; with captures to fetch it succeeds if and only if the device answers with no failure, and otherwise fails for the first; it is out of range if and only if a request was refused before it since the last burst |
| UsrpServer.CollectWithoutBurst | uhd_wrapper/lib/usrp.cpp:299-311 | with a new configuration and nothing left to fetch, a collect finds too many requests and the next one is out of range |
| UsrpServer.BurstThenCollect | uhd_wrapper/lib/usrp.cpp:277-319 | without errors of the threads the collect after a burst succeeds if and only if the device has no failure to report, brings all captures and leaves nothing to fetch; if it fails, both queues are kept, and the reason is a thread's error or the first failure reported |
| UsrpServer.BurstThenCollects | uhd_wrapper/lib/usrp.cpp:277-319 | after a successful collect, two more for a new configuration but without a burst: the first finds too many requests, the second is out of range |
| UsrpServer.BurstAgain | uhd_wrapper/lib/usrp.cpp:277-284 | after a failed collect another burst puts the same TX blocks, and the same RX blocks as far as both got, at the same places |
| ServerRuns.Serve | uhd_wrapper/lib/usrp.cpp:207-319 | whatever the call, the server stays valid, configurations are taken over exactly when they are accepted, and what can be collected of the last burst only shrinks, by as many requests as signals are brought; only a burst makes more |
| ServerRuns.ServeAll | uhd_wrapper/lib/usrp.cpp:207-319 | over every sequence of calls each successful collect brings all captures of the last burst or, once they are collected, nothing, and all since a burst bring no more signals than it recorded repetitions |
| ServerRuns.RunServer | uhd_wrapper/lib/usrp.cpp:21-319 | the same for every run of a new server; with rates set on empty queues only, its queues keep the guard |
| ServerRuns.CollectAnotherQueue | uhd_wrapper/lib/usrp.cpp:299-319 | a collect for another queue than that of the burst leaves exactly the recorded repetitions it did not ask for |
| TimedFlags.OnlyLatestPending | usrp_client/system.py:42-49 | after every history no timer but that of the latest set is pending |
| TimedFlags.ShowsRecentSet | usrp_client/system.py:28-53 | after every history the flag is set exactly if it was set less than the reset time ago and not reset since; no old timer clears a newer set |
| TimedFlags.StaleTimerClears | usrp_client/system.py:46 | the cancelling is needed: a timer left pending would clear a newer set before its time |
| TimedFlags.TimedFlag.Set | usrp_client/system.py:33-36 | the flag is set, the timer referred to is cancelled and a new one runs |
| TimedFlags.TimedFlag.Reset | usrp_client/system.py:38-40 | the flag is cleared, the timer runs on |
| SyncSystem.ExecutedAfter | usrp_client/system.py:310-321 | in a safe log, before each execute call there are the calls that gave every client its source, none of them followed by another giving to it; a later comparison of all clocks, in time and close, with no attempt to join after it; and a query of all times for the base time, followed by execute calls only; the times are those of every client's own clock, and several clients were given another source than "internal" |
| SyncSystem.SourceFor | usrp_client/system.py:161-168 | several clients never run on their internal clocks; another request than "auto" is passed on unchanged, or refused exactly if it is "internal" for several clients |
| SyncSystem.FailingNamesExact | usrp_client/system.py:299-308 | an error is reported for exactly the clients that fail |
| SyncSystem.FailingNamesOnce | usrp_client/system.py:299-308 | no client is reported twice |
| SyncSystem.System.AddUsrp | usrp_client/system.py:137-159 | registers a client of new name and address and forgets that sources were set; a failure changes only the synchronisation flag |
| SyncSystem.System.IsTaken | usrp_client/system.py:180-192 | true exactly when the name or the address would occur twice |
| SyncSystem.System.UpdateSyncSources | usrp_client/system.py:170-178 | every client gets the source for the present set and is asked to zero its clock, once per set of clients |
| SyncSystem.System.GiveSources | usrp_client/system.py:175-176 | in order, until one answers with an error, which is raised; if none does, every client has the source |
| SyncSystem.System.SetTimeToZeroNextPps | usrp_client/system.py:275-279 | in order, until one answers with an error, which is raised; then the wait for the pulse |
| SyncSystem.System.GetCurrentFpgaTimes | usrp_client/system.py:294-297 | entry k is what the clock of client k shows; an error is raised if and only if a client answers with one, and it is that of the first |
| SyncSystem.System.SynchronisationValid | usrp_client/system.py:267-273 | true exactly when what the clocks of all clients show is closer than the threshold |
| SyncSystem.System.SynchronizeClocks | usrp_client/system.py:251-265 | nothing while the flag is set; otherwise at most four looks, the last of which found the clocks of all clients close; it gives up only after four looks that found them apart |
| SyncSystem.System.RetrySynchronization | usrp_client/system.py:259-265 | at most three attempts, ended by one that succeeds or by an error; three failed ones take three times the wait for the pulse and between attempts |
| SyncSystem.System.TryToSynchronize | usrp_client/system.py:259-264 | the clocks are set and compared once, and a failed comparison waits before the next attempt |
| SyncSystem.System.SynchronizeUsrps | usrp_client/system.py:246-249 | if it passes, sources are set and the flag is set; it raises nothing while the flag is set, and otherwise only for a reason that a client or the clocks gave |
| SyncSystem.System.CalculateBaseTimeSec | usrp_client/system.py:285-292 | the largest of what the clocks of all clients show now, plus the offset; raises exactly without clients or for the first error a client answers with |
| SyncSystem.CallsAllIff | usrp_client/system.py:302-306 | every client is called if and only if no call before the last ends in another exception than a remote error |
| SyncSystem.System.FanOut | usrp_client/system.py:299-308 | clients are called in order at one base time, each call justified, up to the first that ends in another exception, which is raised; if none does, all are called and the remote errors are raised in order |
| SyncSystem.System.Execute | usrp_client/system.py:310-321 | either no client is reached, for a reason that a clock source, a client or the clocks gave, or the log ends with a query of all times and the calls of the fan-out at the base time for these times, and what the fan-out raises is raised; every call is justified |

## Left out

- BlockOffsetTracking.BlockOffsetTracker.ReplayNextBlock: after a request was refused, a further recording leaves the cursor at a place that corresponds to no request; from there until the reset the contract promises only a valid object.
- UsrpServer.Usrp.Execute: the threads run to their ends before it returns, so calls that another client makes while they run, and the data races these would be, are not modelled; neither is waiting, as a transfer that gets no more samples ends as `Stalled`.
- StreamingThreads.TxFinish: like RxFinish, a thread of the model goes on when every sample has moved; the original sleeps for the computed duration of the stream and counts nothing, so that it does not notice samples that come late or not at all.
- ReplayBlockConfiguration.ReplayBlockConfig.SetStreamCount: requires as many ports as streams, as what the hardware does with commands to ports it lacks is not known; `SetRfConfig` refuses such counts, also where the original would fail only when it connects the ports.
- UsrpServer.Usrp.SetRfConfig: only stream counts and sampling rates, which are positive; gains, frequencies, antenna mapping and a setting that fails half way are not modelled, nor are stream counts before the first call, which the original leaves uninitialised and the model sets to 0.
- UsrpServer.Usrp.SetTxConfig: the queue is not validated again when the sampling rate changes between two calls; `Scheduled` holds as long as it changes with empty queues only.
- BurstAdmission.RxRefusal: counts are unbounded, as in all results about runs; for entries within the bounds `QueueAdmittedAsMachine` closes the gap.
- SyncSystem.ExecutedAfter: the clocks may have been asked to zero themselves after the comparison, as the public `resetFpgaTimes` does not clear the flag.
- StreamingConfig.AssertValidTxSignal: without the check for NaN, as wire samples have no such value; the conversion from floating point to 16 bit and back is not modelled.
- SampleCounts.GrantedTotalsAreExact: with the lemmas beside it and `BurstAdmission.MachineAdmits` the only place that models machine widths; everywhere else counts and offsets are unbounded, and times are reals.
- SyncSystem.System.Execute: remote calls take no time, timers fire on time.
- `System.newUsrp`, `configureTx`, `configureRx` and `collect` of the client, and the check for clipped values: thin wrappers around remote calls.
- The hardware is a value: an array of bytes with record and play windows. The graph, streamers, time keeper and their timeouts belong to a foreign library.
- `disconnectAll`, edge sets, RX antenna selection, decimation of the radio's samples, logging and sleeps.
- Remote procedure calls, bindings, serialisation, examples and scripts.
