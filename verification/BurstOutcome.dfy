/** What a burst owes its caller: everything requested is played, everything captured is
    collected. Stated on values; `Usrp` keeps it. */
module BurstOutcome {
  import opened Outcomes
  import opened Samples
  import opened StreamingConfig
  import opened BlockLayout
  import opened BlockOffsetTracking
  import opened ReplayBlockConfiguration
  import opened DuplexGraph
  import opened StreamingThreads
  import opened StreamingProofs
  import opened BurstPipeline
  import opened BurstAdmission

  /** `queued` is the entry an accepted request has left in the queue. */
  ghost predicate Accepted(request: TxStreamingConfig, queued: TxStreamingConfig) {
    && |request.samples| > 0 && EqualLengths(request.samples, |request.samples[0]|)
    && PaddedFrom(queued, request) && ValidTx(queued, |queued.samples|)
    && (request.numRepetitions != 1 ==> |request.samples[0]| % WORD_SIZE == 0)
  }

  /** What the radio owes for stream p of a request: the signal repeated, when repetitions are
      asked for; otherwise the signal once, followed by fewer than eight zeros. */
  ghost predicate PlaysRequest(request: TxStreamingConfig, p: nat, xs: seq<Sample>)
    requires p < |request.samples|
  {
    if request.numRepetitions > 1 then xs == Repeat(request.samples[p], request.numRepetitions)
    else exists k: nat :: k < WORD_SIZE && xs == request.samples[p] + Zeros(k)
  }

  ghost predicate RequestPlayed(request: TxStreamingConfig, channels: MimoSignal) {
    && |channels| == |request.samples|
    && forall p | 0 <= p < |channels| :: PlaysRequest(request, p, channels[p])
  }

  /** Every stream of every request has played what is owed. */
  ghost predicate AllPlayed(requests: seq<TxStreamingConfig>, played: seq<MimoSignal>) {
    && |played| == |requests|
    && forall k | 0 <= k < |requests| :: RequestPlayed(requests[k], played[k])
  }

  /** The signal received for repetition r of configuration i is that repetition: on every stream
      its samples, from the capture of that configuration. */
  ghost predicate CollectedAt(queue: seq<RxStreamingConfig>, captured: seq<MimoSignal>, received: seq<MimoSignal>,
                              i: nat, r: nat)
    requires i < |queue| == |captured|
  {
    var n := RepetitionsBefore(RxBlocks(queue), i) + r;
    n < |received| && received[n] == RepetitionSignal(queue, captured, i, r)
  }

  /** `received` is one signal per configuration and repetition, in that order. */
  ghost predicate AllCollected(queue: seq<RxStreamingConfig>, captured: seq<MimoSignal>, received: seq<MimoSignal>) {
    && |captured| == |queue| && |received| == RepetitionsBefore(RxBlocks(queue), |queue|)
    && forall i, r | 0 <= i < |queue| && 0 <= r < queue[i].numRepetitions ::
         CollectedAt(queue, captured, received, i, r)
  }

  lemma QueuePlaysRequests(b: Burst, run: seq<StreamState>, requests: seq<TxStreamingConfig>)
    requires IsRun(b, run) && TxCompleted(b, run[|run| - 1])
    requires AllAccepted(requests, b.txQueue)
    ensures AllPlayed(requests, run[|run| - 1].tx.played)
  {
    RunKeepsInv(b, run, |run| - 1);
    var played := run[|run| - 1].tx.played;
    forall k | 0 <= k < |requests| ensures RequestPlayed(requests[k], played[k]) {
      assert Accepted(requests[k], b.txQueue[k]) && ValidTx(b.txQueue[k], b.numTx);
      forall p | 0 <= p < b.numTx ensures |played[k]| == b.numTx && PlaysRequest(requests[k], p, played[k][p]) {
        PlayedIsQueued(b, run, k, p);
        PlayedFromUserSignal(requests[k], b.txQueue[k], p);
      }
    }
  }

  lemma ExpectedIsCollected(queue: seq<RxStreamingConfig>, captured: seq<MimoSignal>, received: seq<MimoSignal>)
    requires |captured| == |queue| && forall i | 0 <= i < |queue| :: ValidRx(queue[i])
    requires |received| == TotalReplays(RxBlocks(queue))
    requires forall n | 0 <= n < |received| :: received[n] == Expected(queue, captured, n)
    ensures AllCollected(queue, captured, received)
  {
    var blocks := RxBlocks(queue);
    RequestsAreRepetitions(blocks, |queue|);
    forall i, r | 0 <= i < |queue| && 0 <= r < queue[i].numRepetitions
      ensures CollectedAt(queue, captured, received, i, r)
    {
      RequestsAreRepetitions(blocks, i);
      ExpectedAt(queue, captured, i, r);
    }
  }

  /** After a complete upload the threads may start. */
  lemma StreamingMayBegin(b: Burst, view: ReplayView)
    requires UploadedSome(b.memSize, view.tx, view.device.mem, b.txQueue, |b.txQueue|)
    requires view.tx.streams == b.numTx && view.tx.replays == 0
    requires view.rx == TrackerView(RxBufferSize(b.memSize), b.numRx, [], 0, None)
    requires forall i | 0 <= i < |b.rxQueue| :: ValidRx(b.rxQueue[i])
    requires b.numTx <= |view.device.play| && b.numRx <= |view.device.rec|
    ensures Init(b, StreamState(view, TX_IDLE, RX_IDLE))
  {
    assert b.txQueue[..|b.txQueue|] == b.txQueue;
  }

  /** What a burst leaves behind when both threads are done. */
  ghost predicate Streamed(b: Burst, view: ReplayView, tx: TxThread, rx: RxThread, requests: seq<TxStreamingConfig>) {
    && view.tx.Settled() && view.rx.Settled() && view.tx.blocks == TxBlocks(b.txQueue)
    && view.rx.blocks <= RxBlocks(b.rxQueue)
    && (tx.error.None? ==> AllPlayed(requests, tx.played))
    && (rx.error.None? ==> view.rx.AtStart() && Stored(RxPart(b), view.rx, view.device.mem, rx.captured))
  }

  /** A run of the transition system in which both threads come to their ends, with this outcome. */
  ghost predicate RunEnds(b: Burst, radio: Radio, run: seq<StreamState>, view: ReplayView, tx: TxThread, rx: RxThread) {
    && IsRun(b, run) && IsAllowed(radio, b, run)
    && run[|run| - 1] == StreamState(view, tx, rx) && TxDone(b, tx) && RxDone(b, rx)
  }

  /** What the device has to say during a burst. */
  datatype BurstAnswers = BurstAnswers(uploads: nat -> SignalAnswer, radio: Radio)

  /** How a burst ends: the upload is refused, or both threads come to their ends and leave what
      is owed. */
  ghost predicate BurstEnds(b: Burst, requests: seq<TxStreamingConfig>, answers: BurstAnswers, r: Outcome,
                            run: seq<StreamState>, view: ReplayView, tx: TxThread, rx: RxThread)
  {
    match r
    case Fail(e) =>
      && UploadRefused(b.txQueue, answers.uploads, view.tx, e)
      && view.tx.streams == b.numTx && view.tx.memSize == TxBufferSize(b.memSize)
      && view.rx.AtStart() && view.rx.blocks == []
    case Pass =>
      && UploadsClean(b.txQueue, answers.uploads, |b.txQueue|)
      && RunEnds(b, answers.radio, run, view, tx, rx) && Streamed(b, view, tx, rx, requests)
  }

  /** How a burst for accepted queues ends is up to the queues and the answers of the device. When the
      device takes and acknowledges all signals, the upload passes if and only if every TX entry is
      admitted. The transmit thread then ends without an error if and only if the radio reports
      none, and the receive thread if and only if the radio reports none and every RX entry is
      admitted, unless samples keep straying in. What is captured is what was in the air. */
  lemma BurstIffAdmitted(b: Burst, requests: seq<TxStreamingConfig>, answers: BurstAnswers, r: Outcome,
                         run: seq<StreamState>, view: ReplayView, tx: TxThread, rx: RxThread)
    requires BurstEnds(b, requests, answers, r, run, view, tx, rx)
    ensures r.Pass? ==> TxAdmitted(b.memSize, b.numTx, b.txQueue)
    ensures UploadsHealthy(b.txQueue, answers.uploads, b.numTx) || (r.Fail? && !UploadFault(r.error)) ==>
              (r.Pass? <==> TxAdmitted(b.memSize, b.numTx, b.txQueue))
    ensures r.Pass? ==> (tx.error.None? <==> NoTxFault(answers.radio, b))
    ensures r.Pass? && rx.error.None? ==> NoRxFault(answers.radio, b) && RxAdmitted(b, |b.rxQueue|)
    ensures r.Pass? && NothingStrays(answers.radio, b) && NoRxFault(answers.radio, b) ==>
              (rx.error.None? <==> RxAdmitted(b, |b.rxQueue|))
    ensures r.Pass? && WithoutTxFault(b, run) ==> tx.error.None?
    ensures r.Pass? && WithoutRxFault(b, run) ==> (rx.error.None? <==> RxAdmitted(b, |b.rxQueue|))
    ensures r.Pass? ==> FromAir(answers.radio, rx.captured)
  {
    match r
    case Fail(e) =>
      if !UploadFault(e) || UploadsHealthy(b.txQueue, answers.uploads, b.numTx) {
        RefusedIsNotAdmitted(b.memSize, view.tx, b.txQueue, answers.uploads, e);
      }
    case Pass =>
      ReservedIsAdmitted(b, run[0].view.tx);
      EndsAsTold(answers.radio, b, run);
      if WithoutTxFault(b, run) {
        TxNeverRefused(b, run, |run| - 1);
      }
      if WithoutRxFault(b, run) {
        StreamsIffAdmitted(b, run);
      }
  }

  function RxPart(b: Burst): Burst {
    Burst(b.memSize, 0, b.numRx, [], b.rxQueue)
  }

  ghost predicate AllAccepted(requests: seq<TxStreamingConfig>, queue: seq<TxStreamingConfig>) {
    |requests| == |queue| && forall k | 0 <= k < |queue| :: Accepted(requests[k], queue[k])
  }

  lemma RunStreams(b: Burst, radio: Radio, run: seq<StreamState>, view: ReplayView, tx: TxThread, rx: RxThread,
                   requests: seq<TxStreamingConfig>)
    requires RunEnds(b, radio, run, view, tx, rx)
    requires AllAccepted(requests, b.txQueue)
    ensures Streamed(b, view, tx, rx, requests)
  {
    RunKeepsInv(b, run, |run| - 1);
    RxBlocksBegin(b, view.rx);
    if tx.error.None? {
      QueuePlaysRequests(b, run, requests);
    }
    if rx.error.None? {
      RunStores(b, view, rx);
    }
  }

  lemma RxBlocksBegin(b: Burst, v: TrackerView)
    requires RxReserved(b, v)
    ensures v.blocks <= RxBlocks(b.rxQueue)
  {
    var n := |v.blocks|;
    assert RxBlocks(b.rxQueue) == RxBlocks(b.rxQueue[..n]) + RxBlocks(b.rxQueue[n..]);
  }

  lemma RunStores(b: Burst, view: ReplayView, rx: RxThread)
    requires RxInv(b, view.rx, view.device.mem, view.device.rec, rx) && RxDone(b, rx) && rx.error.None?
    ensures Stored(RxPart(b), view.rx, view.device.mem, rx.captured)
  {
    assert b.rxQueue[..|b.rxQueue|] == b.rxQueue;
    forall i, p | 0 <= i < |rx.captured| && 0 <= p < b.numRx
      ensures Captured(view.device.mem, RxAddress(RxPart(b), view.rx.blocks, i, p), view.rx.blocks[i].TotalSamples(),
                       rx.captured[i][p], true)
    {
      assert Captured(view.device.mem, RxAddress(b, view.rx.blocks, i, p), view.rx.blocks[i].TotalSamples(),
                      rx.captured[i][p], i < rx.index);
    }
  }

  /** Runs both threads to their ends. */
  method PerformStreaming(replay: ReplayBlockConfig, graph: RfNocFullDuplexGraph, b: Burst, radio: Radio,
                          ghost requests: seq<TxStreamingConfig>)
    returns (r: Outcome, tx: TxThread, rx: RxThread, ghost run: seq<StreamState>)
    requires replay.Valid() && graph !in replay.Repr
    requires replay.numTxStreams == b.numTx == graph.numTxStreams && replay.numRxStreams == b.numRx
    requires replay.memSize == b.memSize && AllAccepted(requests, b.txQueue)
    requires UploadedSome(b.memSize, replay.View().tx, replay.View().device.mem, b.txQueue, |b.txQueue|)
    requires replay.View().tx.replays == 0
    requires replay.View().rx == TrackerView(RxBufferSize(b.memSize), b.numRx, [], 0, None)
    requires forall i | 0 <= i < |b.rxQueue| :: ValidRx(b.rxQueue[i])
    modifies graph, replay.txBlocks, replay.rxBlocks, replay.hw
    ensures replay.Valid() && r.Pass? && graph.numRxStreams == b.numRx
    ensures |replay.hw.device.rec| == |old(replay.hw.device).rec|
    ensures |replay.hw.device.play| == |old(replay.hw.device).play|
    ensures Streamed(b, replay.View(), tx, rx, requests)
    ensures RunEnds(b, radio, run, replay.View(), tx, rx)
  {
    r := graph.ConnectForStreaming(b.numTx, b.numRx);
    StreamingMayBegin(b, replay.View());
    tx, rx, run := RunThreads(replay, b, radio);
    RunStreams(b, radio, run, replay.View(), tx, rx, requests);
  }

  /** A download that succeeds for the queue of the last burst brings all its captures. */
  lemma CollectOutcome(b: Burst, v: TrackerView, v': TrackerView, mem: seq<Byte>, captured: seq<MimoSignal>,
                       received: seq<MimoSignal>)
    requires Stored(b, v, mem, captured) && KeptRx(v, v')
    requires |received| == TotalReplays(RxBlocks(b.rxQueue))
    requires b.rxQueue != [] ==> v'.replays == v.replays + |received| <= TotalReplays(v'.blocks)
    requires b.rxQueue == [] ==> v' == v && Drained(v)
    requires DownloadedRight(b.rxQueue, b.numRx, b.memSize, v, mem, received, captured)
    requires b.numTx == 0 && b.txQueue == [] && v'.overrunAt == v.overrunAt
    ensures AllCollected(b.rxQueue, captured, received) && Drained(v') && (v.overrunAt.None? ==> v'.Exhausted())
  {
    ExpectedIsCollected(b.rxQueue, captured, received);
  }

  /** The RX buffer holds the captures of `queue` on `streams` streams, whatever the number of
      streams is set to now. */
  ghost predicate RecordedIn(memSize: nat, streams: nat, queue: seq<RxStreamingConfig>, v: TrackerView,
                             mem: seq<Byte>, captured: seq<MimoSignal>)
  {
    Stored(Burst(memSize, 0, streams, [], queue), v.(streams := streams), mem, captured)
  }

  lemma RecordedKept(memSize: nat, streams: nat, queue: seq<RxStreamingConfig>, v: TrackerView, v': TrackerView,
                     mem: seq<Byte>, captured: seq<MimoSignal>)
    requires RecordedIn(memSize, streams, queue, v, mem, captured) && KeptRx(v, v')
    ensures RecordedIn(memSize, streams, queue, v', mem, captured)
  {
    StoredKept(Burst(memSize, 0, streams, [], queue), v.(streams := streams), v'.(streams := streams), mem, captured);
  }

  lemma StreamedIsRecorded(b: Burst, view: ReplayView, tx: TxThread, rx: RxThread, requests: seq<TxStreamingConfig>)
    requires Streamed(b, view, tx, rx, requests) && rx.error.None? && view.rx.streams == b.numRx
    ensures RecordedIn(b.memSize, b.numRx, b.rxQueue, view.rx, view.device.mem, rx.captured)
  {
    assert view.rx.(streams := b.numRx) == view.rx;
  }

  lemma NothingIsRecorded(memSize: nat, streams: nat, v: TrackerView, mem: seq<Byte>)
    requires v.memSize == RxBufferSize(memSize) && v.blocks == [] && |mem| == memSize
    ensures RecordedIn(memSize, streams, [], v, mem, [])
  {
  }

  /** A whole burst on freshly reset trackers. When the upload is refused, neither thread starts
      and the RX buffer is empty. */
  method PerformBurst(replay: ReplayBlockConfig, graph: RfNocFullDuplexGraph, b: Burst, answers: BurstAnswers,
                      ghost requests: seq<TxStreamingConfig>)
    returns (r: Outcome, tx: TxThread, rx: RxThread, ghost run: seq<StreamState>)
    requires replay.Valid() && graph !in replay.Repr && graph.hw == replay.hw
    requires replay.numTxStreams == b.numTx && replay.numRxStreams == b.numRx && replay.memSize == b.memSize
    requires AllAccepted(requests, b.txQueue) && forall i | 0 <= i < |b.rxQueue| :: ValidRx(b.rxQueue[i])
    modifies graph, replay.txBlocks, replay.rxBlocks, replay.hw
    ensures replay.Valid() && replay.View().tx.Settled() && replay.View().rx.Settled()
    ensures |replay.hw.device.rec| == |old(replay.hw.device).rec|
    ensures |replay.hw.device.play| == |old(replay.hw.device).play|
    ensures r.Fail? ==> tx == TX_IDLE && rx == RX_IDLE
    ensures r.Fail? ==> RecordedIn(b.memSize, graph.numRxStreams, [], replay.View().rx, replay.View().device.mem, [])
    ensures r.Pass? ==> graph.numRxStreams == b.numRx
    ensures BurstEnds(b, requests, answers, r, run, replay.View(), tx, rx)
    ensures r.Pass? && rx.error.None? ==>
              RecordedIn(b.memSize, b.numRx, b.rxQueue, replay.View().rx, replay.View().device.mem, rx.captured)
  {
    tx, rx, run := TX_IDLE, RX_IDLE, [];
    replay.Reset();
    r := PerformUpload(replay, graph, b.txQueue, answers.uploads);
    NothingIsRecorded(b.memSize, graph.numRxStreams, replay.View().rx, replay.View().device.mem);
    if r.Pass? {
      r, tx, rx, run := PerformStreaming(replay, graph, b, answers.radio, requests);
      if rx.error.None? {
        StreamedIsRecorded(b, replay.View(), tx, rx, requests);
      }
    }
  }

  /** A collect answers as many requests as it returns signals, one for each repetition in the queue.
      One that fails may use up requests; none makes any. */
  ghost predicate Answered(v: TrackerView, v': TrackerView, queue: seq<RxStreamingConfig>, r: Result<seq<MimoSignal>>) {
    && v'.blocks == v.blocks && v'.Unanswered() <= v.Unanswered()
    && (r.Success? ==>
          && |r.value| == TotalReplays(RxBlocks(queue))
          && v.Unanswered() == |r.value| + v'.Unanswered())
  }

  /** A collect that succeeds has met no failure of the device, and one that fails for a fault of the
      device fails for the first failure the device has answered with. */
  ghost predicate AnsweredAs(queue: seq<RxStreamingConfig>, answers: nat -> DownloadAnswer,
                             r: Result<seq<MimoSignal>>)
  {
    && (r.Success? ==> AnswersClean(queue, answers, TotalReplays(RxBlocks(queue))))
    && (r.Failure? && DeviceFault(r.error) ==> Reported(queue, answers, r.error))
  }

  /** Download for `queue` after a burst that executed `executed` and captured `captured`. */
  method DownloadBurst(replay: ReplayBlockConfig, graph: RfNocFullDuplexGraph, queue: seq<RxStreamingConfig>,
                       numRx: nat, answers: nat -> DownloadAnswer, ghost executed: seq<RxStreamingConfig>,
                       ghost captured: seq<MimoSignal>)
    returns (r: Result<seq<MimoSignal>>)
    requires replay.Valid() && graph.hw == replay.hw && replay.View().rx.Settled() && numRx == replay.numRxStreams
    requires forall i | 0 <= i < |queue| :: ValidRx(queue[i])
    requires RecordedIn(replay.memSize, graph.numRxStreams, executed, replay.View().rx, replay.View().device.mem,
                        captured)
    modifies replay.rxBlocks, replay.hw
    ensures replay.Valid() && replay.View().rx.Settled() && replay.View().tx == old(replay.View().tx)
    ensures SameStorage(old(replay.hw.device), replay.hw.device)
    ensures RecordedIn(replay.memSize, graph.numRxStreams, executed, replay.View().rx, replay.View().device.mem,
                       captured)
    ensures r.Success? && queue == executed ==> AllCollected(queue, captured, r.value) && Drained(replay.View().rx)
    ensures old(Drained(replay.View().rx)) ==> Drained(replay.View().rx)
    ensures old(Drained(replay.View().rx)) && r.Success? ==> queue == [] && r.value == []
    ensures queue == [] && numRx == graph.numRxStreams ==> r == Success([])
    ensures Answered(old(replay.View().rx), replay.View().rx, queue, r)
    ensures r.Success? && queue == executed && old(replay.View().rx.overrunAt.None?) ==> replay.View().rx.Exhausted()
    ensures r.Failure? && queue == executed && old(replay.View().rx.AtStart()) && numRx > 0 ==>
              if numRx != graph.numRxStreams then r.error == ChannelMismatch else DeviceFault(r.error)
    ensures r.Failure? && numRx == graph.numRxStreams ==>
              CursorFailure(old(replay.View().rx), replay.View().rx, replay.memSize, queue, r.error)
    ensures AnsweredAs(queue, answers, r)
    ensures numRx != graph.numRxStreams ==> r == Failure(ChannelMismatch) && replay.View() == old(replay.View())
  {
    ghost var v, mem := replay.View().rx, replay.View().device.mem;
    assert replay.rxBlocks.replayBlocks == [] ==> Drained(v);
    ReplaysBeforeMonotone(RxBlocks(queue), 0, |queue|);
    r := PerformDownload(replay, graph, queue, numRx, answers, captured);
    RecordedKept(replay.memSize, graph.numRxStreams, executed, v, replay.View().rx, mem, captured);
    if r.Success? && queue == executed {
      CollectOutcome(Burst(replay.memSize, 0, numRx, [], queue), v, replay.View().rx, mem, captured, r.value);
    }
  }
}
