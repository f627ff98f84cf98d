/** The device server's object: queues of streaming configurations, execution of a burst, and
    collection of what it captured (`Usrp` in uhd_wrapper/lib/usrp.cpp). */
module UsrpServer {
  import opened Outcomes
  import opened Samples
  import opened StreamingConfig
  import opened Schedule
  import opened BlockLayout
  import opened ReplayDevice
  import opened ReplayBlockConfiguration
  import opened DuplexGraph
  import opened StreamingThreads
  import opened BurstPipeline
  import opened BurstOutcome

  const GUARD_OFFSET_S: real := 0.05
  const MAX_STREAMS: nat := 4

  class Usrp {
    const hw: ReplayHardware
    const replay: ReplayBlockConfig
    const graph: RfNocFullDuplexGraph

    var numTx: nat
    var numRx: nat
    var txRate: real
    var rxRate: real
    var txQueue: seq<TxStreamingConfig>
    var rxQueue: seq<RxStreamingConfig>
    var txException: Option<UsrpError>
    var rxException: Option<UsrpError>
    var receivedSamples: seq<MimoSignal>

    ghost var txRequests: seq<TxStreamingConfig>  // the accepted requests behind txQueue
    ghost var played: seq<MimoSignal>             // what the last burst played
    ghost var executedRx: seq<RxStreamingConfig>  // the RX queue of the last burst
    ghost var captured: seq<MimoSignal>           // what arrived for it

    ghost const Repr: set<object>

    ghost predicate Valid()
      reads this, Repr
    {
      && Wired()
      && (rxException.None? ==> Recorded())
    }

    /** Everything but what was recorded. */
    ghost predicate Wired()
      reads this, Repr
    {
      && Repr == {this, graph} + replay.Repr && this !in replay.Repr && graph !in replay.Repr
      && replay in replay.Repr && replay.Valid()
      && replay.hw == hw && graph.hw == hw
      && replay.numTxStreams == numTx && replay.numRxStreams == numRx
      && numTx <= MAX_STREAMS && numRx <= MAX_STREAMS
      && txRate > 0.0 && rxRate > 0.0
      && QueuesValid()
      && replay.rxBlocks.View().Settled() && replay.txBlocks.View().Settled()
    }

    ghost predicate QueuesValid()
      reads this`txQueue, this`rxQueue, this`txRequests
    {
      && AllAccepted(txRequests, txQueue)
      && (forall i | 0 <= i < |rxQueue| :: ValidRx(rxQueue[i]))
    }

    /** The queues are what validation accepts at the present rates and stream count: transmissions
        and captures keep their distance (see `Schedule`). */
    ghost predicate Scheduled()
      reads this`txQueue, this`rxQueue, this`txRate, this`rxRate, this`numTx
    {
      && txRate > 0.0 && rxRate > 0.0
      && TxQueue(txQueue, numTx, GUARD_OFFSET_S, txRate) && RxQueue(rxQueue, GUARD_OFFSET_S, rxRate)
    }

    /** The RX buffer still holds what the last burst captured. */
    ghost predicate Recorded()
      reads this`executedRx, this`captured, graph, hw, replay.rxBlocks
    {
      RecordedIn(replay.memSize, graph.numRxStreams, executedRx, replay.rxBlocks.View(), hw.device.mem, captured)
    }

    /** The stream counts are 0 until the first SetRfConfig. */
    constructor (device: Device, numAntennas: nat)
      ensures Valid() && txQueue == [] && rxQueue == [] && Scheduled()
      ensures fresh(Repr) && replay.View().rx.blocks == [] && replay.View().rx.AtStart()
    {
      var h := new ReplayHardware(device);
      var config := new ReplayBlockConfig(h);
      var g := new RfNocFullDuplexGraph(h, numAntennas);
      hw, replay, graph := h, config, g;
      numTx, numRx, txRate, rxRate := 0, 0, 1.0, 1.0;
      txQueue, rxQueue, txException, rxException, receivedSamples := [], [], None, None, [];
      txRequests, played, executedRx, captured := [], [], [], [];
      Repr := {this, g} + config.Repr;
    }

    /** Blocks, cursors and memory are as before; the trackers have other stream counts. */
    static ghost predicate CountsSet(v: ReplayView, v': ReplayView, noTxStreams: nat, noRxStreams: nat) {
      v' == v.(tx := v.tx.(streams := noTxStreams), rx := v.rx.(streams := noRxStreams))
    }

    /** There is a port of either kind for every stream. */
    predicate HasPorts(streams: int)
      reads hw
    {
      streams <= |hw.device.rec| && streams <= |hw.device.play|
    }

    /** The hardware may have fewer ports than the four streams that are allowed. */
    method SetRfConfig(noTxStreams: int, noRxStreams: int, txSamplingRate: real, rxSamplingRate: real)
      returns (r: Outcome)
      requires Valid() && txSamplingRate > 0.0 && rxSamplingRate > 0.0
      modifies this`numTx, this`numRx, this`txRate, this`rxRate, replay, replay.txBlocks, replay.rxBlocks
      ensures Valid()
      ensures r == if !(1 <= noTxStreams <= MAX_STREAMS && 1 <= noRxStreams <= MAX_STREAMS) then
                     Fail(InvalidStreamCount)
                   else if noTxStreams > |hw.device.rec| || noTxStreams > |hw.device.play|
                           || noRxStreams > |hw.device.rec| || noRxStreams > |hw.device.play| then
                     Fail(AntennaNotAvailable)
                   else Pass
      ensures r.Pass? ==> numTx == noTxStreams && numRx == noRxStreams
                          && txRate == txSamplingRate && rxRate == rxSamplingRate
                          && CountsSet(old(replay.View()), replay.View(), noTxStreams, noRxStreams)
      ensures r.Fail? ==> numTx == old(numTx) && numRx == old(numRx) && txRate == old(txRate) && rxRate == old(rxRate)
                          && replay.View() == old(replay.View())
    {
      if noTxStreams > MAX_STREAMS || noTxStreams < 1 || noRxStreams > MAX_STREAMS || noRxStreams < 1 {
        return Fail(InvalidStreamCount);
      }
      if !HasPorts(noTxStreams) || !HasPorts(noRxStreams) {
        return Fail(AntennaNotAvailable);
      }
      AdoptRfConfig(noTxStreams, noRxStreams, txSamplingRate, rxSamplingRate);
      return Pass;
    }

    method AdoptRfConfig(noTxStreams: nat, noRxStreams: nat, txSamplingRate: real, rxSamplingRate: real)
      requires Valid() && txSamplingRate > 0.0 && rxSamplingRate > 0.0
      requires noTxStreams <= MAX_STREAMS && noRxStreams <= MAX_STREAMS
      requires HasPorts(noTxStreams) && HasPorts(noRxStreams)
      modifies this`numTx, this`numRx, this`txRate, this`rxRate, replay, replay.txBlocks, replay.rxBlocks
      ensures Valid() && numTx == noTxStreams && numRx == noRxStreams
      ensures txRate == txSamplingRate && rxRate == rxSamplingRate
      ensures CountsSet(old(replay.View()), replay.View(), noTxStreams, noRxStreams)
    {
      numTx, numRx, txRate, rxRate := noTxStreams, noRxStreams, txSamplingRate, rxSamplingRate;
      replay.SetStreamCount(noTxStreams, noRxStreams);
    }

    method SetTxConfig(conf: TxStreamingConfig) returns (r: Outcome)
      requires Valid()
      modifies this`txQueue, this`txRequests
      ensures Valid()
      ensures match AcceptTx(old(txQueue), conf, numTx, GUARD_OFFSET_S, txRate)
              case Success(queue) => r.Pass? && txQueue == queue && txRequests == old(txRequests) + [conf]
              case Failure(e) => r == Fail(e) && txQueue == old(txQueue) && txRequests == old(txRequests)
      ensures old(Scheduled()) ==> Scheduled()
    {
      r := AssertValidTxSignal(conf.samples, MAX_SAMPLES_TX_SIGNAL, numTx);
      :- r;
      var prev: Option<TxStreamingConfig> := None;
      if |txQueue| > 0 {
        assert Accepted(txRequests[|txQueue| - 1], txQueue[|txQueue| - 1]);
        prev := Some(txQueue[|txQueue| - 1]);
      }
      :- AssertValidTxStreamingConfig(prev, conf, GUARD_OFFSET_S, txRate);
      var buffer := new MimoBuffer(conf.samples);
      buffer.ExtendToWordSize();
      var queued := conf.(samples := buffer.channels);
      assert PaddedFrom(queued, conf);
      AcceptedTxIsValid(conf, queued, numTx, prev, GUARD_OFFSET_S, txRate);
      assert queued.samples == PaddedConfig(conf).samples;
      txQueue := txQueue + [queued];
      txRequests := txRequests + [conf];
      r := Pass;
    }

    method SetRxConfig(conf: RxStreamingConfig) returns (r: Outcome)
      requires Valid()
      modifies this`rxQueue
      ensures Valid()
      ensures match AcceptRx(old(rxQueue), conf, GUARD_OFFSET_S, rxRate)
              case Success(queue) => r.Pass? && rxQueue == queue
              case Failure(e) => r == Fail(e) && rxQueue == old(rxQueue)
      ensures old(Scheduled()) ==> Scheduled()
    {
      var prev := if |rxQueue| > 0 then Some(rxQueue[|rxQueue| - 1]) else None;
      :- AssertValidRxStreamingConfig(prev, conf, GUARD_OFFSET_S, rxRate);
      rxQueue := rxQueue + [conf];
      r := Pass;
    }

    method ResetStreamingConfigs()
      requires Valid()
      modifies this`txQueue, this`rxQueue, this`txRequests
      ensures Valid() && txQueue == [] && rxQueue == [] && txRequests == []
    {
      txQueue, rxQueue := [], [];
      txRequests := [];
    }

    /** Upload and stream. Errors of the threads are kept for Collect. */
    method Execute(answers: BurstAnswers)
      returns (r: Outcome, ghost run: seq<StreamState>, ghost tx: TxThread, ghost rx: RxThread)
      requires Valid()
      modifies this`txException, this`rxException, this`played, this`captured, this`executedRx
      modifies graph, replay.txBlocks, replay.rxBlocks, hw
      ensures Valid()
      ensures r.Fail? ==> txException == old(txException) && rxException == old(rxException)
      ensures r.Pass? && txException.None? ==> AllPlayed(txRequests, played)
      ensures r.Pass? ==> txException == tx.error && rxException == rx.error && graph.numRxStreams == numRx
      ensures r.Pass? && rxException.None? ==> executedRx == rxQueue && captured == rx.captured
      ensures BurstEnds(Burst(replay.memSize, numTx, numRx, txQueue, rxQueue), txRequests, answers, r, run,
                        replay.View(), tx, rx)
    {
      var tx', rx';
      r, tx', rx', run := RunBurst(answers);
      tx, rx := tx', rx';
      KeepOutcome(r, tx', rx');
    }

    /** What a burst leaves for Collect. */
    method KeepOutcome(r: Outcome, tx: TxThread, rx: RxThread)
      requires Wired()
      requires r.Fail? || rx.error.None? ==>
                 RecordedIn(replay.memSize, graph.numRxStreams, if r.Pass? then rxQueue else [],
                            replay.rxBlocks.View(), hw.device.mem, rx.captured)
      modifies this`txException, this`rxException, this`played, this`captured, this`executedRx
      ensures Valid() && replay.View() == old(replay.View()) && played == tx.played && captured == rx.captured
      ensures executedRx == if r.Pass? then rxQueue else []
      ensures txException == (if r.Pass? then tx.error else old(txException))
      ensures rxException == (if r.Pass? then rx.error else old(rxException))
    {
      if r.Pass? {
        txException, rxException := tx.error, rx.error;
      }
      played, captured, executedRx := tx.played, rx.captured, if r.Pass? then rxQueue else [];
    }

    /** Both phases before the download, for the present queues. */
    method RunBurst(answers: BurstAnswers)
      returns (r: Outcome, tx: TxThread, rx: RxThread, ghost run: seq<StreamState>)
      requires Valid()
      modifies graph, replay.txBlocks, replay.rxBlocks, hw
      ensures Wired()
      ensures r.Pass? ==> graph.numRxStreams == numRx
      ensures r.Fail? || rx.error.None? ==>
                RecordedIn(replay.memSize, graph.numRxStreams, if r.Pass? then rxQueue else [],
                           replay.rxBlocks.View(), hw.device.mem, rx.captured)
      ensures BurstEnds(Burst(replay.memSize, numTx, numRx, txQueue, rxQueue), txRequests, answers, r, run,
                        replay.View(), tx, rx)
    {
      r, tx, rx, run := PerformBurst(replay, graph, Burst(replay.memSize, numTx, numRx, txQueue, rxQueue), answers,
                                     txRequests);
    }

    method PerformDownload(answers: nat -> DownloadAnswer) returns (r: Result<seq<MimoSignal>>)
      requires Valid() && rxException.None?
      modifies this`receivedSamples, replay.rxBlocks, hw
      ensures Valid()
      ensures r.Success? && rxQueue == executedRx ==>
                AllCollected(rxQueue, captured, r.value) && Drained(replay.View().rx)
      ensures old(Drained(replay.View().rx)) ==> Drained(replay.View().rx)
      ensures old(Drained(replay.View().rx)) && r.Success? ==> rxQueue == [] && r.value == []
      ensures rxQueue == [] && numRx == graph.numRxStreams ==> r == Success([])
      ensures Answered(old(replay.View().rx), replay.View().rx, rxQueue, r) && AnsweredAs(rxQueue, answers, r)
      ensures numRx != graph.numRxStreams ==> r == Failure(ChannelMismatch) && replay.View() == old(replay.View())
      ensures r.Failure? && rxQueue == executedRx && old(replay.View().rx.AtStart()) && numRx > 0 ==>
                if numRx != graph.numRxStreams then r.error == ChannelMismatch else DeviceFault(r.error)
      ensures r.Success? && rxQueue == executedRx && old(replay.View().rx.overrunAt.None?) ==>
                replay.View().rx.Exhausted()
      ensures r.Failure? && numRx == graph.numRxStreams ==>
                CursorFailure(old(replay.View().rx), replay.View().rx, replay.memSize, rxQueue, r.error)
    {
      r := DownloadBurst(replay, graph, rxQueue, numRx, answers, executedRx, captured);
      if r.Success? {
        receivedSamples := r.value;
      }
    }

    /** Downloads the captures of the last burst and forgets the queues. */
    method Collect(answers: nat -> DownloadAnswer) returns (r: Result<seq<MimoSignal>>)
      requires Valid()
      modifies this`txQueue, this`rxQueue, this`txRequests, this`receivedSamples
      modifies replay.rxBlocks, hw
      ensures Valid()
      ensures txException.Some? ==> r == Failure(txException.value)
      ensures txException.None? && rxException.Some? ==> r == Failure(rxException.value)
      ensures txException.Some? || rxException.Some? ==> replay.View() == old(replay.View())
      ensures r.Failure? ==> txQueue == old(txQueue) && rxQueue == old(rxQueue) && txRequests == old(txRequests)
      ensures r.Success? ==> txQueue == [] && rxQueue == [] && txRequests == []
      ensures r.Success? && old(rxQueue) == executedRx ==>
                AllCollected(old(rxQueue), captured, r.value) && Drained(replay.View().rx)
      ensures old(Drained(replay.View().rx)) ==> Drained(replay.View().rx)
      ensures old(Drained(replay.View().rx)) && r.Success? ==> old(rxQueue) == [] && r.value == []
      ensures txException.None? && rxException.None? && old(rxQueue) == [] && numRx == graph.numRxStreams ==>
                r == Success([])
      ensures Answered(old(replay.View().rx), replay.View().rx, old(rxQueue), r)
      ensures txException.None? && rxException.None? ==> AnsweredAs(old(rxQueue), answers, r)
      ensures txException.None? && rxException.None? && numRx != graph.numRxStreams ==> r == Failure(ChannelMismatch)
      ensures r.Failure? && txException.None? && rxException.None?
              && rxQueue == executedRx && old(replay.View().rx.AtStart()) && numRx > 0 ==>
                if numRx != graph.numRxStreams then r.error == ChannelMismatch else DeviceFault(r.error)
      ensures r.Success? && old(rxQueue) == executedRx && old(replay.View().rx.overrunAt.None?) ==>
                replay.View().rx.Exhausted()
      ensures r.Failure? && txException.None? && rxException.None? && numRx == graph.numRxStreams ==>
                CursorFailure(old(replay.View().rx), replay.View().rx, replay.memSize, rxQueue, r.error)
    {
      if txException.Some? {
        return Failure(txException.value);
      }
      if rxException.Some? {
        return Failure(rxException.value);
      }
      r := FetchAndForget(answers);
    }

    /** The collect of a burst whose threads did not fail. */
    method FetchAndForget(answers: nat -> DownloadAnswer) returns (r: Result<seq<MimoSignal>>)
      requires Valid() && txException.None? && rxException.None?
      modifies this`txQueue, this`rxQueue, this`txRequests, this`receivedSamples
      modifies replay.rxBlocks, hw
      ensures Valid()
      ensures r.Failure? ==> txQueue == old(txQueue) && rxQueue == old(rxQueue) && txRequests == old(txRequests)
      ensures r.Success? ==> txQueue == [] && rxQueue == [] && txRequests == []
      ensures r.Success? && old(rxQueue) == executedRx ==>
                AllCollected(old(rxQueue), captured, r.value) && Drained(replay.View().rx)
      ensures old(Drained(replay.View().rx)) ==> Drained(replay.View().rx)
      ensures old(Drained(replay.View().rx)) && r.Success? ==> old(rxQueue) == [] && r.value == []
      ensures old(rxQueue) == [] && numRx == graph.numRxStreams ==> r == Success([])
      ensures Answered(old(replay.View().rx), replay.View().rx, old(rxQueue), r)
      ensures AnsweredAs(old(rxQueue), answers, r)
      ensures numRx != graph.numRxStreams ==> r == Failure(ChannelMismatch)
      ensures r.Failure? && rxQueue == executedRx && old(replay.View().rx.AtStart()) && numRx > 0 ==>
                if numRx != graph.numRxStreams then r.error == ChannelMismatch else DeviceFault(r.error)
      ensures r.Success? && old(rxQueue) == executedRx && old(replay.View().rx.overrunAt.None?) ==>
                replay.View().rx.Exhausted()
      ensures r.Failure? && numRx == graph.numRxStreams ==>
                CursorFailure(old(replay.View().rx), replay.View().rx, replay.memSize, rxQueue, r.error)
    {
      var received :- PerformDownload(answers);
      ResetStreamingConfigs();
      r := Success(received);
    }
  }

  /** A collect when all captures have been collected, and another one: the first finds no capture
      left, the second finds the cursor past the end. */
  method CollectWithoutBurst(u: Usrp, answers: nat -> DownloadAnswer)
    returns (second: Result<seq<MimoSignal>>, third: Result<seq<MimoSignal>>)
    requires u.Valid() && u.txException.None? && u.rxException.None?
    requires u.replay.View().rx.Exhausted() && u.rxQueue != [] && u.numRx == u.graph.numRxStreams > 0
    modifies u`txQueue, u`rxQueue, u`txRequests, u`receivedSamples, u.replay.rxBlocks, u.hw
    ensures u.Valid() && u.rxQueue == old(u.rxQueue)
    ensures second == Failure(TooManyReplays) && third == Failure(OutOfRange)
  {
    second := u.Collect(answers);
    assert second == Failure(TooManyReplays) && u.replay.View().rx.overrunAt.Some?;
    third := u.Collect(answers);
  }

  /** One burst and its collect. When neither thread fails, the collect succeeds if and only if the
      device has no failure to report, and then brings all captures. */
  method BurstThenCollect(u: Usrp, answers: BurstAnswers, downloads: nat -> DownloadAnswer)
    returns (burst: Outcome, first: Result<seq<MimoSignal>>)
    requires u.Valid()
    modifies u.Repr
    ensures u.Valid()
    ensures burst.Pass? && first.Success? ==>
              && u.executedRx == old(u.rxQueue) && AllCollected(old(u.rxQueue), u.captured, first.value)
              && u.txException.None? && u.rxException.None? && u.rxQueue == []
              && u.replay.View().rx.Exhausted() && u.numRx == u.graph.numRxStreams
    ensures burst.Pass? && first.Failure? ==> u.txQueue == old(u.txQueue) && u.rxQueue == old(u.rxQueue)
    ensures burst.Pass? && u.numRx > 0 ==>
              match first
              case Success(_) => AnswersClean(old(u.rxQueue), downloads, TotalReplays(RxBlocks(old(u.rxQueue))))
              case Failure(e) =>
                || Some(e) == u.txException || Some(e) == u.rxException
                || (u.txException.None? && u.rxException.None? && Reported(old(u.rxQueue), downloads, e))
  {
    ghost var run, tx, rx;
    burst, run, tx, rx := u.Execute(answers);
    first := u.Collect(downloads);
  }

  /** One burst, and what three collects bring. Later ones without another burst bring nothing of
      it, even for a new configuration. */
  method BurstThenCollects(u: Usrp, conf: RxStreamingConfig, answers: BurstAnswers, downloads: nat -> DownloadAnswer)
    returns (burst: Outcome, first: Result<seq<MimoSignal>>, accepted: Outcome, later: seq<Result<seq<MimoSignal>>>)
    requires u.Valid()
    modifies u.Repr
    ensures u.Valid()
    ensures burst.Pass? && first.Success? ==>
              u.executedRx == old(u.rxQueue) && AllCollected(old(u.rxQueue), u.captured, first.value)
    ensures burst.Pass? && first.Success? && accepted.Pass? && u.numRx > 0 ==>
              later == [Failure(TooManyReplays), Failure(OutOfRange)]
  {
    burst, first := BurstThenCollect(u, answers, downloads);
    later := [];
    accepted := u.SetRxConfig(conf);
    if burst.Pass? && first.Success? && accepted.Pass? && u.numRx > 0 {
      var second, third := CollectWithoutBurst(u, downloads);
      later := [second, third];
    }
  }

  /** After a collect that fails, another burst puts the same blocks at the same places, whatever the
      device answers: all TX blocks, and the RX blocks as far as both bursts got. */
  method BurstAgain(u: Usrp, answers: BurstAnswers, downloads: nat -> DownloadAnswer, moreAnswers: BurstAnswers)
    returns (burst: Outcome, collected: Result<seq<MimoSignal>>, again: Outcome, ghost before: ReplayView)
    requires u.Valid()
    modifies u.Repr
    ensures u.Valid()
    ensures burst.Pass? && collected.Failure? && again.Pass? ==>
              var after := u.replay.View();
              && after.tx.blocks == before.tx.blocks && after.tx.streams == before.tx.streams
              && after.rx.streams == before.rx.streams
              && (after.rx.blocks <= before.rx.blocks || before.rx.blocks <= after.rx.blocks)
  {
    burst := BurstPlaces(u, answers);
    before := u.replay.View();
    collected := u.Collect(downloads);
    again := Pass;
    if burst.Pass? && collected.Failure? {
      again := BurstPlaces(u, moreAnswers);
    }
  }

  /** The blocks of a burst are those of the queues. */
  method BurstPlaces(u: Usrp, answers: BurstAnswers) returns (burst: Outcome)
    requires u.Valid()
    modifies u.Repr
    ensures u.Valid() && u.txQueue == old(u.txQueue) && u.rxQueue == old(u.rxQueue)
    ensures u.numTx == old(u.numTx) && u.numRx == old(u.numRx)
    ensures u.replay.View().tx.streams == u.numTx && u.replay.View().rx.streams == u.numRx
    ensures burst.Pass? ==>
              u.replay.View().tx.blocks == TxBlocks(u.txQueue) && u.replay.View().rx.blocks <= RxBlocks(u.rxQueue)
  {
    ghost var run, tx, rx;
    burst, run, tx, rx := u.Execute(answers);
  }
}
