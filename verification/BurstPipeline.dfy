/** The three phases of a burst: upload, the two streaming threads, download
    (`performUpload`, `performStreaming` and `performDownload` in uhd_wrapper/lib/usrp.cpp). */
module BurstPipeline {
  import opened Outcomes
  import opened Samples
  import opened StreamingConfig
  import opened SampleCounts
  import opened BlockLayout
  import opened BlockOffsetTracking
  import opened ReplayDevice
  import opened ReplayBlockConfiguration
  import opened DuplexGraph
  import opened StreamingThreads
  import opened StreamingProofs

  // ---------- Upload ----------

  /** Ports armed for the newest block of the TX buffer can take a signal. */
  lemma ArmedIsReady(d: Device, v: TrackerView, length: nat)
    requires Armed(d, v.streams, 0, v.blocks, v.streams)
    requires v.blocks[|v.blocks| - 1].TotalSamples() == length
    requires v.Sound() && v.memSize <= |d.mem|
    ensures Windows(d, v.streams, length, NewestLo(0, v.blocks, v.streams), NewestHi(0, v.blocks, v.streams))
  {
    forall p | 0 <= p < v.streams
      ensures RecFits(d, p, SAMPLE_SIZE * length, NewestLo(0, v.blocks, v.streams), NewestHi(0, v.blocks, v.streams))
    {
      ArmedWithin(d, v.streams, 0, v.blocks, v.streams, p);
    }
    forall p, q | 0 <= p < v.streams && 0 <= q < v.streams && p != q ensures RecApart(d, p, q) {
      ArmedApart(d, v, p, q);
    }
  }

  lemma ArmedApart(d: Device, v: TrackerView, p: nat, q: nat)
    requires Armed(d, v.streams, 0, v.blocks, v.streams) && p < v.streams && q < v.streams && p != q
    ensures RecApart(d, p, q)
  {
    var k := |v.blocks| - 1;
    if p < q {
      RegionsDisjoint(v.blocks, v.streams, k, p, k, q);
    } else {
      RegionsDisjoint(v.blocks, v.streams, k, q, k, p);
    }
  }

  /** Before the upload of configuration n: its predecessors are reserved and stored. */
  ghost predicate UploadedSome(memSize: nat, v: TrackerView, mem: seq<Byte>, queue: seq<TxStreamingConfig>, n: nat) {
    && n <= |queue| && |mem| == memSize
    && var b := Burst(memSize, v.streams, 0, queue[..n], []);
    && TxMemory(b, v, mem)
  }

  /** Reserving a block for configuration n, filling its regions and touching nothing else
      extends what is stored by configuration n. */
  lemma UploadExtends(memSize: nat, v: TrackerView, v': TrackerView, d: Device, d1: Device, d': Device,
                      queue: seq<TxStreamingConfig>, n: nat)
    requires UploadedSome(memSize, v, d.mem, queue, n) && n < |queue| && ValidTx(queue[n], v.streams)
    requires v.RecordOutcome(BlockFor(|queue[n].samples[0]|, 1, 0)).Pass?
    requires v' == v.AfterRecord(BlockFor(|queue[n].samples[0]|, 1, 0))
    requires Recording(d, d1, v', 0, Pass)
    requires SameBut(d1, d', NewestLo(0, v'.blocks, v.streams), NewestHi(0, v'.blocks, v.streams))
    requires Delivered(d', queue[n].samples, v.streams, |queue[n].samples[0]|, |queue[n].samples[0]|)
    ensures UploadedSome(memSize, v', d'.mem, queue, n + 1)
  {
    var lo, hi := NewestLo(0, v'.blocks, v.streams), NewestHi(0, v'.blocks, v.streams);
    AgreeOutsideTrans(d.mem, d1.mem, d'.mem, lo, hi);
    var b, b' := Burst(memSize, v.streams, 0, queue[..n], []), Burst(memSize, v.streams, 0, queue[..n + 1], []);
    UploadReserved(b, b', v, queue, n);
    forall k, p | 0 <= k < n + 1 && 0 <= p < |b'.txQueue[k].samples|
      ensures Holds(d'.mem, TxAddress(b', v'.blocks, k, p), b'.txQueue[k].samples[p])
    {
      assert ValidTx(b'.txQueue[k], b.numTx);
      if k < n {
        UploadKept(b, v, BlockFor(|queue[n].samples[0]|, 1, 0), d.mem, d'.mem, k, p);
        assert b'.txQueue[k] == b.txQueue[k];
      } else {
        UploadFilled(v', d1, d', queue[n], n, p);
      }
    }
    assert TxStored(b', v'.blocks, d'.mem, n + 1);
  }

  lemma UploadReserved(b: Burst, b': Burst, v: TrackerView, queue: seq<TxStreamingConfig>, n: nat)
    requires n < |queue| && b.txQueue == queue[..n] && b' == b.(txQueue := queue[..n + 1])
    requires TxReserved(b, v) && ValidTx(queue[n], b.numTx)
    requires v.RecordOutcome(BlockFor(|queue[n].samples[0]|, 1, 0)).Pass?
    ensures TxReserved(b', v.AfterRecord(BlockFor(|queue[n].samples[0]|, 1, 0)))
  {
    var block := BlockFor(|queue[n].samples[0]|, 1, 0);
    AcceptedRecordIsSound(v, block);
    forall k | 0 <= k < n + 1 ensures ValidTx(b'.txQueue[k], b.numTx) {
      if k < n {
        assert b.txQueue[k] == b'.txQueue[k];
      }
    }
    assert TxBlocks(b'.txQueue) == TxBlocks(b.txQueue) + [block];
  }

  lemma UploadFilled(v': TrackerView, d1: Device, d': Device, conf: TxStreamingConfig, n: nat, p: nat)
    requires Armed(d1, v'.streams, 0, v'.blocks, v'.streams) && |v'.blocks| == n + 1 && p < v'.streams
    requires SameBut(d1, d', NewestLo(0, v'.blocks, v'.streams), NewestHi(0, v'.blocks, v'.streams))
    requires ValidTx(conf, v'.streams)
    requires Delivered(d', conf.samples, v'.streams, |conf.samples[0]|, |conf.samples[0]|)
    ensures Holds(d'.mem, SAMPLE_SIZE * RegionStart(v'.blocks, v'.streams, n, p), conf.samples[p])
  {
    assert conf.samples[p][..|conf.samples[0]|] == conf.samples[p];
    assert Filled(d', p, conf.samples[p][..|conf.samples[0]|]);
  }

  /** Once its block is reserved, a signal can be sent. */
  lemma UploadMayBegin(v: TrackerView, v': TrackerView, d: Device, d1: Device, length: nat)
    requires v.Sound() && v.memSize <= |d.mem|
    requires v.RecordOutcome(BlockFor(length, 1, 0)).Pass?
    requires v' == v.AfterRecord(BlockFor(length, 1, 0))
    requires Recording(d, d1, v', 0, Pass)
    ensures Windows(d1, v.streams, length, NewestLo(0, v'.blocks, v.streams), NewestHi(0, v'.blocks, v.streams))
    ensures forall p | 0 <= p < v.streams :: d1.rec[p].fullness == 0
  {
    AcceptedRecordIsSound(v, BlockFor(length, 1, 0));
    ArmedIsReady(d1, v', length);
  }

  lemma UploadKept(b: Burst, v: TrackerView, block: ReplayBlock, mem: seq<Byte>, mem': seq<Byte>, k: nat, p: nat)
    requires TxMemory(b, v, mem) && k < |b.txQueue| && p < b.numTx
    requires var blocks := v.blocks + [block];
             AgreeOutside(mem, mem', NewestLo(0, blocks, b.numTx), NewestHi(0, blocks, b.numTx))
    ensures Holds(mem', TxAddress(b, v.blocks + [block], k, p), b.txQueue[k].samples[p])
  {
    var blocks := v.blocks + [block];
    RegionPrefix(v.blocks, [block], b.numTx, k, p);
    EarlierRegionBelow(blocks, b.numTx, k, p);
    UploadedLength(b, v, k, p);
    HoldsFrame(mem, mem', NewestLo(0, blocks, b.numTx), NewestHi(0, blocks, b.numTx),
               TxAddress(b, v.blocks, k, p), b.txQueue[k].samples[p]);
  }

  /** Regions of earlier blocks end before the newest block starts. */
  lemma EarlierRegionBelow(blocks: seq<ReplayBlock>, streams: nat, k: nat, p: nat)
    requires k < |blocks| - 1 && p < streams
    ensures SAMPLE_SIZE * (RegionStart(blocks, streams, k, p) + blocks[k].TotalSamples())
            <= NewestLo(0, blocks, streams)
  {
    RegionInBlock(blocks, streams, k, p);
    SamplesBeforeMonotone(blocks, streams, k + 1, |blocks| - 1);
  }

  lemma UploadedLength(b: Burst, v: TrackerView, k: nat, p: nat)
    requires TxReserved(b, v) && k < |b.txQueue| && p < b.numTx
    ensures p < |b.txQueue[k].samples| && |b.txQueue[k].samples[p]| == v.blocks[k].TotalSamples()
  {
    assert ValidTx(b.txQueue[k], b.numTx);
    assert v.blocks[k] == TxBlock(b.txQueue[k]);
  }

  /** What the device has to say of the upload of one signal. */
  datatype SignalAnswer = SignalAnswer(strays: Strays, upload: UploadAnswer)

  /** The failure that the upload of this signal stands for by the answer of the device, if any. */
  function SignalFailure(conf: TxStreamingConfig, answer: SignalAnswer): Option<UsrpError> {
    UploadFailure(answer.upload, if |conf.samples| == 0 then 0 else |conf.samples[0]|)
  }

  /** An upload ends early only at the first signal whose number of channels or whose size the memory
      does not take, or for which the device has answered with a failure, or where samples keep
      straying in. */
  ghost predicate UploadRefused(queue: seq<TxStreamingConfig>, answers: nat -> SignalAnswer, v: TrackerView,
                                e: UsrpError)
  {
    var n := |v.blocks|;
    && n <= |queue| && v.blocks == TxBlocks(queue[..n])
    && (|| (n < |queue| && v.RecordOutcome(TxBlock(queue[n])) == Fail(e))
        || (n > 0 && SignalRefused(queue[n - 1], answers(n - 1), v.streams, e)))
  }

  /** Why a signal for which memory has been reserved may yet not be uploaded. */
  ghost predicate SignalRefused(conf: TxStreamingConfig, answer: SignalAnswer, streams: nat, e: UsrpError) {
    || (Noisy(answer.strays, streams) && e == CannotClearBuffer)
    || (|conf.samples| != streams && e == ChannelMismatch)
    || (|conf.samples| == streams && SignalFailure(conf, answer) == Some(e))
  }

  /** The device has no failure to report for the first n uploads. */
  ghost predicate UploadsClean(queue: seq<TxStreamingConfig>, answers: nat -> SignalAnswer, n: nat) {
    n <= |queue| && forall k | 0 <= k < n :: SignalFailure(queue[k], answers(k)) == None
  }

  lemma UploadStops(v: TrackerView, v': TrackerView, queue: seq<TxStreamingConfig>, answers: nat -> SignalAnswer,
                    n: nat, e: UsrpError)
    requires n < |queue| && v.blocks == TxBlocks(queue[..n]) && v' == v.AfterRecord(TxBlock(queue[n]))
    requires v.RecordOutcome(TxBlock(queue[n])) == Fail(e)
             || (v.RecordOutcome(TxBlock(queue[n])).Pass? && SignalRefused(queue[n], answers(n), v.streams, e))
    ensures UploadRefused(queue, answers, v', e)
  {
    if v.RecordOutcome(TxBlock(queue[n])).Pass? {
      assert queue[..n + 1] == queue[..n] + [queue[n]];
      assert v'.blocks == TxBlocks(queue[..n + 1]);
    }
  }

  /** Upload of every queued signal. What the device accepts per transfer is up to it. */
  method PerformUpload(replay: ReplayBlockConfig, graph: RfNocFullDuplexGraph, queue: seq<TxStreamingConfig>,
                       answers: nat -> SignalAnswer)
    returns (r: Outcome)
    requires replay.Valid() && graph !in replay.Repr && graph.hw == replay.hw
    requires forall k | 0 <= k < |queue| :: ValidTx(queue[k], |queue[k].samples|)
    requires replay.txBlocks.View() == TrackerView(TxBufferSize(replay.memSize), replay.numTxStreams, [], 0, None)
    modifies replay.txBlocks, replay.hw, graph
    ensures replay.Valid() && graph.numRxStreams == old(graph.numRxStreams)
    ensures graph.numTxStreams == replay.numTxStreams
    ensures replay.rxBlocks.View() == old(replay.rxBlocks.View())
    ensures replay.txBlocks.View().Settled() && replay.txBlocks.numStreams == old(replay.txBlocks.numStreams)
    ensures |replay.hw.device.rec| == |old(replay.hw.device).rec|
    ensures |replay.hw.device.play| == |old(replay.hw.device).play|
    ensures r.Pass? ==> UploadedSome(replay.memSize, replay.txBlocks.View(), replay.hw.device.mem, queue, |queue|)
                        && replay.txBlocks.View().replays == 0 && UploadsClean(queue, answers, |queue|)
    ensures r.Fail? ==> UploadRefused(queue, answers, replay.txBlocks.View(), r.error)
  {
    graph.ConnectForUpload(replay.numTxStreams);
    assert queue[..0] == [];
    for n := 0 to |queue|
      invariant replay.Valid() && graph.hw == replay.hw
      invariant graph.numTxStreams == replay.numTxStreams && graph.numRxStreams == old(graph.numRxStreams)
      invariant replay.rxBlocks.View() == old(replay.rxBlocks.View())
      invariant replay.txBlocks.replays == 0 && replay.txBlocks.overrunAt.None?
      invariant replay.txBlocks.numStreams == old(replay.txBlocks.numStreams)
      invariant |replay.hw.device.rec| == |old(replay.hw.device).rec|
      invariant |replay.hw.device.play| == |old(replay.hw.device).play|
      invariant UploadedSome(replay.memSize, replay.txBlocks.View(), replay.hw.device.mem, queue, n)
      invariant UploadsClean(queue, answers, n)
    {
      r := UploadOne(replay, graph, queue, answers, n);
      if r.Fail? {
        return;
      }
      CleanNext(queue, answers, n);
    }
    r := Pass;
  }

  lemma CleanNext(queue: seq<TxStreamingConfig>, answers: nat -> SignalAnswer, n: nat)
    requires n < |queue| && UploadsClean(queue, answers, n) && SignalFailure(queue[n], answers(n)) == None
    ensures UploadsClean(queue, answers, n + 1)
  {
  }

  method UploadOne(replay: ReplayBlockConfig, graph: RfNocFullDuplexGraph, queue: seq<TxStreamingConfig>,
                   answers: nat -> SignalAnswer, n: nat)
    returns (r: Outcome)
    requires replay.Valid() && graph.hw == replay.hw && graph !in replay.Repr
    requires graph.numTxStreams == replay.numTxStreams
    requires n < |queue| && ValidTx(queue[n], |queue[n].samples|)
    requires UploadedSome(replay.memSize, replay.txBlocks.View(), replay.hw.device.mem, queue, n)
    modifies replay.txBlocks, replay.hw
    ensures replay.Valid() && replay.rxBlocks.View() == old(replay.rxBlocks.View())
    ensures replay.txBlocks.replays == old(replay.txBlocks.replays) && replay.txBlocks.overrunAt.None?
    ensures replay.txBlocks.numStreams == old(replay.txBlocks.numStreams)
    ensures |replay.hw.device.rec| == |old(replay.hw.device).rec|
    ensures |replay.hw.device.play| == |old(replay.hw.device).play|
    ensures r.Pass? ==> UploadedSome(replay.memSize, replay.txBlocks.View(), replay.hw.device.mem, queue, n + 1)
                        && SignalFailure(queue[n], answers(n)) == None
    ensures r.Fail? ==> UploadRefused(queue, answers, replay.txBlocks.View(), r.error)
  {
    var txSignal := queue[n].samples;
    var numSamples := |txSignal[0]|;
    ghost var v, d := replay.txBlocks.View(), replay.hw.device;
    var answer := answers(n);
    r := replay.ConfigUpload(numSamples, answer.strays);
    if r.Pass? {
      ghost var v', d1 := replay.txBlocks.View(), replay.hw.device;
      UploadMayBegin(v, v', d, d1, numSamples);
      ghost var lo, hi := NewestLo(0, v'.blocks, v.streams), NewestHi(0, v'.blocks, v.streams);
      var requests;
      r, requests := graph.Upload(txSignal, answer.upload, lo, hi);
      if r.Pass? {
        assert |txSignal| == replay.numTxStreams == v.streams && Done(requests) == numSamples;
        assert Delivered(replay.hw.device, txSignal, v.streams, numSamples, numSamples);
        UploadExtends(replay.memSize, v, v', d, d1, replay.hw.device, queue, n);
      }
    }
    if r.Fail? {
      UploadStops(v, replay.txBlocks.View(), queue, answers, n, r.error);
    }
  }

  // ---------- Streaming ----------

  ghost function State(replay: ReplayBlockConfig, tx: TxThread, rx: RxThread): StreamState
    reads replay, replay.hw, replay.txBlocks, replay.rxBlocks
  {
    StreamState(replay.View(), tx, rx)
  }

  predicate TxDone(b: Burst, tx: TxThread) {
    tx.error.Some? || tx.index >= |b.txQueue|
  }

  predicate RxDone(b: Burst, rx: RxThread) {
    rx.error.Some? || rx.index >= |b.rxQueue|
  }

  /** Samples still missing until every channel has `total`. */
  function Remaining(channels: MimoSignal, total: nat): nat {
    if channels == [] then 0
    else (if |channels[0]| < total then total - |channels[0]| else 0) + Remaining(channels[1..], total)
  }

  lemma {:induction false} RemainingDrops(channels: MimoSignal, total: nat, p: nat, x: Sample)
    requires p < |channels| && |channels[p]| < total
    ensures Remaining(channels[p := channels[p] + [x]], total) == Remaining(channels, total) - 1
    decreases p
  {
    var channels' := channels[p := channels[p] + [x]];
    if p > 0 {
      RemainingDrops(channels[1..], total, p - 1, x);
      assert channels'[1..] == channels[1..][p - 1 := channels[1..][p - 1] + [x]];
    } else {
      assert channels'[1..] == channels[1..];
    }
  }

  /** Some channel with fewer than `total` samples, any of them. */
  method PickUnfinished(channels: MimoSignal, total: nat) returns (p: Option<nat>)
    ensures p.Some? ==> p.value < |channels| && |channels[p.value]| < total
    ensures p.None? ==> forall q | 0 <= q < |channels| :: |channels[q]| >= total
  {
    var q: nat := *;
    if 0 <= q < |channels| && |channels[q]| < total {
      return Some(q);
    }
    q := 0;
    while q < |channels|
      invariant 0 <= q <= |channels| && forall i | 0 <= i < q :: |channels[i]| >= total
    {
      if |channels[q]| < total {
        return Some(q);
      }
      q := q + 1;
    }
    return None;
  }

  /** What is left for the transmit thread to do; see the loop of RunThreads. */
  function TxSamplesLeft(b: Burst, tx: TxThread): nat {
    if tx.active && tx.index < |b.txQueue| && tx.index < |tx.played| && |b.txQueue[tx.index].samples| > 0
       && TxTotalSamples(b.txQueue[tx.index]) >= 0 then
      Remaining(tx.played[tx.index], TxTotalSamples(b.txQueue[tx.index]))
    else 0
  }

  function RxSamplesLeft(b: Burst, rx: RxThread): nat {
    if rx.active && rx.index < |b.rxQueue| && rx.index < |rx.captured|
       && b.rxQueue[rx.index].TotalWordAlignedSamples().Success? then
      Remaining(rx.captured[rx.index], b.rxQueue[rx.index].TotalWordAlignedSamples().value)
    else 0
  }

  ghost predicate TxAdvances(b: Burst, tx: TxThread, tx': TxThread) {
    || tx'.error.Some?
    || (tx'.error.None? && tx'.index == tx.index + 1)
    || (tx'.error.None? && tx'.index == tx.index && !tx.active && tx'.active)
    || (tx'.error.None? && tx'.index == tx.index && tx.active && tx'.active
        && TxSamplesLeft(b, tx') < TxSamplesLeft(b, tx))
  }

  ghost predicate RxAdvances(b: Burst, rx: RxThread, rx': RxThread) {
    || rx'.error.Some?
    || (rx'.error.None? && rx'.index == rx.index + 1)
    || (rx'.error.None? && rx'.index == rx.index && !rx.active && rx'.active)
    || (rx'.error.None? && rx'.index == rx.index && rx.active && rx'.active
        && RxSamplesLeft(b, rx') < RxSamplesLeft(b, rx))
  }

  /** The transmit thread cues its next block. */
  method TransmitConfigure(replay: ReplayBlockConfig, b: Burst, tx: TxThread, ghost rx: RxThread)
    returns (tx': TxThread)
    requires replay.Valid() && replay.numTxStreams == b.numTx
    requires Inv(b, State(replay, tx, rx)) && !TxDone(b, tx) && !tx.active && |b.txQueue[tx.index].samples| > 0
    modifies replay.txBlocks, replay.hw
    ensures replay.Valid() && |replay.hw.device.rec| == |old(replay.hw.device).rec|
    ensures |replay.hw.device.play| == |old(replay.hw.device).play|
    ensures TxConfigure(b, old(State(replay, tx, rx)), State(replay, tx', rx)) && TxAdvances(b, tx, tx')
  {
    var r := replay.ConfigTransmit(|b.txQueue[tx.index].samples[0]|);
    tx' := if r.Pass? then tx.(active := true, played := tx.played + [EmptyChannels(b.numTx)])
           else tx.(error := Some(r.error));
  }

  /** One step of the transmit thread, or of the hardware that plays for it. */
  method TransmitStep(replay: ReplayBlockConfig, b: Burst, radio: Radio, tx: TxThread, ghost rx: RxThread)
    returns (tx': TxThread, ghost step: Step)
    requires replay.Valid() && replay.numTxStreams == b.numTx
    requires Inv(b, State(replay, tx, rx)) && !TxDone(b, tx)
    modifies replay.txBlocks, replay.hw
    ensures replay.Valid() && |replay.hw.device.rec| == |old(replay.hw.device).rec|
    ensures |replay.hw.device.play| == |old(replay.hw.device).play|
    ensures NextBy(b, old(State(replay, tx, rx)), State(replay, tx', rx), step) && TxAdvances(b, tx, tx')
    ensures Allows(radio, b, old(State(replay, tx, rx)), step)
  {
    assert ValidTx(b.txQueue[tx.index], b.numTx);
    TxTotalIsNat(b.txQueue[tx.index], b.numTx);
    if tx.active {
      tx', step := TransmitProgress(replay, b, radio, tx, rx);
    } else {
      tx' := TransmitConfigure(replay, b, tx, rx);
      step := TxConfigures;
    }
  }

  /** A cued block plays on, comes to its end, or fails. */
  method TransmitProgress(replay: ReplayBlockConfig, b: Burst, radio: Radio, tx: TxThread, ghost rx: RxThread)
    returns (tx': TxThread, ghost step: Step)
    requires replay.Valid() && Inv(b, State(replay, tx, rx)) && !TxDone(b, tx) && tx.active
    requires |b.txQueue[tx.index].samples| > 0 && TxTotalSamples(b.txQueue[tx.index]) >= 0
    ensures NextBy(b, State(replay, tx, rx), State(replay, tx', rx), step) && TxAdvances(b, tx, tx')
    ensures Allows(radio, b, State(replay, tx, rx), step)
  {
    var fault := radio.txFault(tx.index);
    if fault.Some? {
      return tx.(error := fault), TxFails(fault.value);
    }
    var p := PickUnfinished(tx.played[tx.index], TxTotalSamples(b.txQueue[tx.index]));
    if p.Some? {
      tx' := PlayStep(replay, b, tx, rx, p.value);
      step := TxPlays(p.value);
    } else {
      tx' := FinishStep(replay, b, tx, rx);
      step := TxFinishes;
    }
  }

  /** All streams have played all there is to play. */
  method FinishStep(replay: ReplayBlockConfig, b: Burst, tx: TxThread, ghost rx: RxThread) returns (tx': TxThread)
    requires Inv(b, State(replay, tx, rx)) && tx.active && tx.error.None?
    requires |b.txQueue[tx.index].samples| > 0
    requires forall p | 0 <= p < |tx.played[tx.index]| ::
               |tx.played[tx.index][p]| >= TxTotalSamples(b.txQueue[tx.index])
    ensures TxFinish(b, State(replay, tx, rx), State(replay, tx', rx)) && TxAdvances(b, tx, tx')
  {
    TxMayFinish(b, State(replay, tx, rx));
    tx' := tx.(active := false, index := tx.index + 1);
  }

  lemma TxMayFinish(b: Burst, s: StreamState)
    requires Inv(b, s) && s.tx.active && s.tx.error.None? && |b.txQueue[s.tx.index].samples| > 0
    requires forall p | 0 <= p < |s.tx.played[s.tx.index]| ::
               |s.tx.played[s.tx.index][p]| >= TxTotalSamples(b.txQueue[s.tx.index])
    ensures var tx' := s.tx.(active := false, index := s.tx.index + 1);
            TxFinish(b, s, s.(tx := tx')) && TxAdvances(b, s.tx, tx')
  {
    forall p | 0 <= p < |s.tx.played[s.tx.index]|
      ensures |s.tx.played[s.tx.index][p]| == TxTotalSamples(b.txQueue[s.tx.index])
    {
      assert ChannelsPlayed(b.txQueue[s.tx.index], b.numTx, s.tx.played[s.tx.index], false);
      assert Played(b.txQueue[s.tx.index], p, s.tx.played[s.tx.index][p], false);
    }
  }

  /** A stream that has samples left to play has a window to play them from. */
  lemma TxHasWindow(b: Burst, s: StreamState, p: nat)
    requires Inv(b, s) && s.tx.active && s.tx.error.None? && p < |s.tx.played[s.tx.index]|
    requires |s.tx.played[s.tx.index][p]| < TxTotalSamples(b.txQueue[s.tx.index])
    ensures TxMayPlay(b, s, p)
  {
    var conf := b.txQueue[s.tx.index];
    assert ChannelsPlayed(conf, b.numTx, s.tx.played[s.tx.index], false);
    assert ValidTx(conf, b.numTx);
    assert |conf.samples[p]| == |conf.samples[0]|;
    EmptySignalPlaysNothing(conf);
    assert Holds(s.view.device.mem, TxAddress(b, s.view.tx.blocks, s.tx.index, p), conf.samples[p]);
  }

  lemma EmptySignalPlaysNothing(conf: TxStreamingConfig)
    requires |conf.samples| > 0
    ensures |conf.samples[0]| == 0 ==> TxTotalSamples(conf) == 0
  {
  }

  method PlayStep(replay: ReplayBlockConfig, b: Burst, tx: TxThread, ghost rx: RxThread, p: nat) returns (tx': TxThread)
    requires replay.Valid() && Inv(b, State(replay, tx, rx)) && tx.active && tx.error.None?
    requires p < |tx.played[tx.index]| && |tx.played[tx.index][p]| < TxTotalSamples(b.txQueue[tx.index])
    ensures TxPlay(b, State(replay, tx, rx), State(replay, tx', rx), p) && TxAdvances(b, tx, tx')
  {
    ghost var s := State(replay, tx, rx);
    TxHasWindow(b, s, p);
    var k := tx.index;
    var xs := tx.played[k][p];
    var x := replay.hw.device.PlayedSample(p, |xs|);
    RemainingDrops(tx.played[k], TxTotalSamples(b.txQueue[k]), p, x);
    tx' := tx.(played := tx.played[k := tx.played[k][p := xs + [x]]]);
  }

  /** The receive thread reserves memory for its next capture. */
  method ReceiveConfigure(replay: ReplayBlockConfig, b: Burst, radio: Radio, ghost tx: TxThread, rx: RxThread)
    returns (rx': RxThread, ghost step: Step)
    requires replay.Valid() && replay.numRxStreams == b.numRx && replay.memSize == b.memSize
    requires Inv(b, State(replay, tx, rx)) && !RxDone(b, rx) && !rx.active
    modifies replay.rxBlocks, replay.hw
    ensures replay.Valid() && |replay.hw.device.rec| == |old(replay.hw.device).rec|
    ensures |replay.hw.device.play| == |old(replay.hw.device).play|
    ensures NextBy(b, old(State(replay, tx, rx)), State(replay, tx, rx'), step) && RxAdvances(b, rx, rx')
    ensures Allows(radio, b, old(State(replay, tx, rx)), step)
  {
    var config := b.rxQueue[rx.index];
    var r := replay.ConfigReceive(config.WordAlignedNoSamples(), config.numRepetitions, config.repetitionPeriod,
                                  radio.strays(rx.index));
    rx' := if r.Fail? then rx.(error := Some(r.error))
           else if config.TotalWordAlignedSamples().Failure? then rx.(error := Some(UnalignedPeriod))
           else rx.(active := true, captured := rx.captured + [EmptyChannels(b.numRx)]);
    step := RxConfigures(r);
  }

  /** One step of the receive thread, or of the hardware that records for it. */
  method ReceiveStep(replay: ReplayBlockConfig, b: Burst, radio: Radio, ghost tx: TxThread, rx: RxThread)
    returns (rx': RxThread, ghost step: Step)
    requires replay.Valid() && replay.numRxStreams == b.numRx && replay.memSize == b.memSize
    requires Inv(b, State(replay, tx, rx)) && !RxDone(b, rx)
    modifies replay.rxBlocks, replay.hw
    ensures replay.Valid() && |replay.hw.device.rec| == |old(replay.hw.device).rec|
    ensures |replay.hw.device.play| == |old(replay.hw.device).play|
    ensures NextBy(b, old(State(replay, tx, rx)), State(replay, tx, rx'), step) && RxAdvances(b, rx, rx')
    ensures Allows(radio, b, old(State(replay, tx, rx)), step)
  {
    if rx.active {
      rx', step := ReceiveProgress(replay, b, radio, tx, rx);
    } else {
      rx', step := ReceiveConfigure(replay, b, radio, tx, rx);
    }
  }

  /** A capture goes on, comes to its end, or fails. */
  method ReceiveProgress(replay: ReplayBlockConfig, b: Burst, radio: Radio, ghost tx: TxThread, rx: RxThread)
    returns (rx': RxThread, ghost step: Step)
    requires replay.Valid() && Inv(b, State(replay, tx, rx)) && !RxDone(b, rx) && rx.active
    modifies replay.hw
    ensures replay.Valid() && |replay.hw.device.rec| == |old(replay.hw.device).rec|
    ensures |replay.hw.device.play| == |old(replay.hw.device).play|
    ensures NextBy(b, old(State(replay, tx, rx)), State(replay, tx, rx'), step) && RxAdvances(b, rx, rx')
    ensures Allows(radio, b, old(State(replay, tx, rx)), step)
  {
    var fault := radio.rxFault(rx.index);
    if fault.Some? {
      return rx.(error := fault), RxFails(fault.value);
    }
    var p := PickUnfinished(rx.captured[rx.index], b.rxQueue[rx.index].TotalWordAlignedSamples().value);
    if p.Some? {
      var x := radio.air(rx.index, p.value, |rx.captured[rx.index][p.value]|);
      rx' := DeliverStep(replay, b, tx, rx, p.value, x);
      step := RxDelivers(p.value, x);
    } else {
      rx' := FinishCapture(replay, b, tx, rx);
      step := RxFinishes;
    }
  }

  /** All streams have delivered what the radio was asked for. */
  method FinishCapture(replay: ReplayBlockConfig, b: Burst, ghost tx: TxThread, rx: RxThread) returns (rx': RxThread)
    requires Inv(b, State(replay, tx, rx)) && !RxDone(b, rx) && rx.active
    requires forall p | 0 <= p < |rx.captured[rx.index]| ::
               |rx.captured[rx.index][p]| >= b.rxQueue[rx.index].TotalWordAlignedSamples().value
    ensures RxFinish(b, State(replay, tx, rx), State(replay, tx, rx')) && RxAdvances(b, rx, rx')
  {
    RxMayFinish(b, State(replay, tx, rx));
    rx' := rx.(active := false, index := rx.index + 1);
  }

  lemma RxMayFinish(b: Burst, s: StreamState)
    requires Inv(b, s) && s.rx.active && s.rx.error.None? && b.rxQueue[s.rx.index].TotalWordAlignedSamples().Success?
    requires forall p | 0 <= p < |s.rx.captured[s.rx.index]| ::
               |s.rx.captured[s.rx.index][p]| >= b.rxQueue[s.rx.index].TotalWordAlignedSamples().value
    ensures var rx' := s.rx.(active := false, index := s.rx.index + 1);
            RxFinish(b, s, s.(rx := rx')) && RxAdvances(b, s.rx, rx')
  {
    var i := s.rx.index;
    SampleConservation(b.rxQueue[i]);
    forall p | 0 <= p < |s.rx.captured[i]|
      ensures |s.rx.captured[i][p]| == b.rxQueue[i].TotalWordAlignedSamples().value
    {
      assert Captured(s.view.device.mem, RxAddress(b, s.view.rx.blocks, i, p), s.view.rx.blocks[i].TotalSamples(),
                      s.rx.captured[i][p], false);
    }
  }

  method DeliverStep(replay: ReplayBlockConfig, b: Burst, ghost tx: TxThread, rx: RxThread, p: nat, x: Sample)
    returns (rx': RxThread)
    requires replay.Valid() && Inv(b, State(replay, tx, rx)) && rx.active && rx.error.None?
    requires p < |rx.captured[rx.index]| && b.rxQueue[rx.index].TotalWordAlignedSamples().Success?
    requires |rx.captured[rx.index][p]| < b.rxQueue[rx.index].TotalWordAlignedSamples().value
    modifies replay.hw
    ensures replay.Valid() && |replay.hw.device.rec| == |old(replay.hw.device).rec|
    ensures |replay.hw.device.play| == |old(replay.hw.device).play|
    ensures RxDeliver(b, old(State(replay, tx, rx)), State(replay, tx, rx'), p, x)
    ensures RxAdvances(b, rx, rx')
  {
    var i := rx.index;
    RemainingDrops(rx.captured[i], b.rxQueue[i].TotalWordAlignedSamples().value, p, x);
    replay.hw.device := replay.hw.device.Deliver(p, x);
    rx' := rx.(captured := rx.captured[i := rx.captured[i][p := rx.captured[i][p] + [x]]]);
  }

  /** A step of either thread that is not done. */
  method AnyStep(replay: ReplayBlockConfig, b: Burst, radio: Radio, tx: TxThread, rx: RxThread)
    returns (tx': TxThread, rx': RxThread, ghost step: Step)
    requires replay.Valid() && replay.numTxStreams == b.numTx && replay.numRxStreams == b.numRx
    requires replay.memSize == b.memSize
    requires Inv(b, State(replay, tx, rx)) && !(TxDone(b, tx) && RxDone(b, rx))
    modifies replay.txBlocks, replay.rxBlocks, replay.hw
    ensures replay.Valid() && |replay.hw.device.rec| == |old(replay.hw.device).rec|
    ensures |replay.hw.device.play| == |old(replay.hw.device).play|
    ensures NextBy(b, old(State(replay, tx, rx)), State(replay, tx', rx'), step)
    ensures Allows(radio, b, old(State(replay, tx, rx)), step)
    ensures (!TxDone(b, tx) && TxAdvances(b, tx, tx')) || (tx' == tx && !RxDone(b, rx) && RxAdvances(b, rx, rx'))
  {
    tx', rx' := tx, rx;
    var transmitNext: bool := *;
    if RxDone(b, rx) || (!TxDone(b, tx) && transmitNext) {
      tx', step := TransmitStep(replay, b, radio, tx, rx);
    } else {
      rx', step := ReceiveStep(replay, b, radio, tx, rx);
    }
  }

  /** Both threads to their ends, in any interleaving: the states passed through are a run of
      the transition system. */
  method RunThreads(replay: ReplayBlockConfig, b: Burst, radio: Radio)
    returns (tx: TxThread, rx: RxThread, ghost run: seq<StreamState>)
    requires replay.Valid() && replay.numTxStreams == b.numTx && replay.numRxStreams == b.numRx
    requires replay.memSize == b.memSize
    requires Init(b, State(replay, TX_IDLE, RX_IDLE))
    modifies replay.txBlocks, replay.rxBlocks, replay.hw
    ensures replay.Valid() && |replay.hw.device.rec| == |old(replay.hw.device).rec|
    ensures |replay.hw.device.play| == |old(replay.hw.device).play|
    ensures IsRun(b, run) && run[|run| - 1] == State(replay, tx, rx) && IsAllowed(radio, b, run)
    ensures TxDone(b, tx) && RxDone(b, rx)
  {
    tx, rx := TX_IDLE, RX_IDLE;
    run := [State(replay, tx, rx)];
    while !TxDone(b, tx) || !RxDone(b, rx)
      invariant replay.Valid() && replay.numTxStreams == b.numTx && replay.numRxStreams == b.numRx
      invariant |replay.hw.device.rec| == |old(replay.hw.device).rec|
      invariant |replay.hw.device.play| == |old(replay.hw.device).play|
      invariant IsRun(b, run) && run[|run| - 1] == State(replay, tx, rx) && IsAllowed(radio, b, run)
      decreases if tx.error.None? then 1 else 0, |b.txQueue| - tx.index, if tx.active then 0 else 1,
                TxSamplesLeft(b, tx),
                if rx.error.None? then 1 else 0, |b.rxQueue| - rx.index, if rx.active then 0 else 1,
                RxSamplesLeft(b, rx)
    {
      tx, rx, run := RunOn(replay, b, radio, tx, rx, run);
    }
  }

  /** One more step of a run. */
  method RunOn(replay: ReplayBlockConfig, b: Burst, radio: Radio, tx: TxThread, rx: RxThread,
               ghost run: seq<StreamState>)
    returns (tx': TxThread, rx': RxThread, ghost run': seq<StreamState>)
    requires replay.Valid() && replay.numTxStreams == b.numTx && replay.numRxStreams == b.numRx
    requires replay.memSize == b.memSize && !(TxDone(b, tx) && RxDone(b, rx))
    requires IsRun(b, run) && run[|run| - 1] == State(replay, tx, rx) && IsAllowed(radio, b, run)
    modifies replay.txBlocks, replay.rxBlocks, replay.hw
    ensures replay.Valid() && |replay.hw.device.rec| == |old(replay.hw.device).rec|
    ensures |replay.hw.device.play| == |old(replay.hw.device).play|
    ensures IsRun(b, run') && run'[|run'| - 1] == State(replay, tx', rx') && IsAllowed(radio, b, run')
    ensures (!TxDone(b, tx) && TxAdvances(b, tx, tx')) || (tx' == tx && !RxDone(b, rx) && RxAdvances(b, rx, rx'))
  {
    RunKeepsInv(b, run, |run| - 1);
    ghost var step;
    tx', rx', step := AnyStep(replay, b, radio, tx, rx);
    AllowedRunExtends(radio, b, run, State(replay, tx', rx'), step);
    run' := run + [State(replay, tx', rx')];
  }

  /** A run in which every step is one that this radio allows. */
  ghost predicate IsAllowed(radio: Radio, b: Burst, run: seq<StreamState>) {
    forall t | 0 < t < |run| :: NextAllowed(radio, b, run[t - 1], run[t])
  }

  lemma AllowedExtends(radio: Radio, b: Burst, run: seq<StreamState>, s: StreamState, step: Step)
    requires run != [] && IsAllowed(radio, b, run)
    requires NextBy(b, run[|run| - 1], s, step) && Allows(radio, b, run[|run| - 1], step)
    ensures IsAllowed(radio, b, run + [s])
  {
    var run' := run + [s];
    assert NextAllowed(radio, b, run[|run| - 1], s);
    forall t | 0 < t < |run'| ensures NextAllowed(radio, b, run'[t - 1], run'[t]) {
      if t < |run| {
        assert run'[t] == run[t];
      }
    }
  }

  lemma AllowedRunExtends(radio: Radio, b: Burst, run: seq<StreamState>, s: StreamState, step: Step)
    requires IsRun(b, run) && IsAllowed(radio, b, run)
    requires NextBy(b, run[|run| - 1], s, step) && Allows(radio, b, run[|run| - 1], step)
    ensures IsRun(b, run + [s]) && IsAllowed(radio, b, run + [s])
  {
    RunExtends(b, run, s, step);
    AllowedExtends(radio, b, run, s, step);
  }

  lemma RunExtends(b: Burst, run: seq<StreamState>, s: StreamState, step: Step)
    requires IsRun(b, run) && NextBy(b, run[|run| - 1], s, step)
    ensures IsRun(b, run + [s])
  {
    var run' := run + [s];
    assert Next(b, run[|run| - 1], s);
    forall t | 0 < t < |run'| ensures Next(b, run'[t - 1], run'[t]) {
      if t < |run| {
        assert run'[t] == run[t];
      }
    }
  }

  // ---------- Download ----------

  /** Samples from .. from + n of every channel; none where the channel is too short. */
  function CutOut(signal: MimoSignal, from: nat, n: nat): (r: MimoSignal)
    ensures |r| == |signal|
    ensures forall p | 0 <= p < |r| && from + n <= |signal[p]| :: r[p] == signal[p][from..from + n]
  {
    seq(|signal|, p requires 0 <= p < |signal| =>
      if from + n <= |signal[p]| then signal[p][from..from + n] else [])
  }

  /** Where repetition r of a capture starts in it. */
  function RepetitionStart(conf: RxStreamingConfig, r: nat): nat {
    r * conf.Period()
  }

  /** The RX buffer holds the captures of all configurations of `queue`, on every stream. */
  ghost predicate Stored(b: Burst, v: TrackerView, mem: seq<Byte>, captured: seq<MimoSignal>) {
    && |mem| == b.memSize && v.memSize == RxBufferSize(b.memSize) && v.streams == b.numRx
    && v.blocks == RxBlocks(b.rxQueue) && v.Sound()
    && |captured| == |b.rxQueue|
    && (forall i | 0 <= i < |b.rxQueue| :: ValidRx(b.rxQueue[i]))
    && (forall i | 0 <= i < |captured| :: |captured[i]| == b.numRx)
    && forall i, p | 0 <= i < |captured| && 0 <= p < b.numRx ::
         Captured(mem, RxAddress(b, v.blocks, i, p), v.blocks[i].TotalSamples(), captured[i][p], true)
  }

  /** The signal that download n should bring: the samples of its repetition, from the capture of
      its configuration. */
  ghost function Expected(queue: seq<RxStreamingConfig>, captured: seq<MimoSignal>, n: nat): MimoSignal
    requires n < TotalReplays(RxBlocks(queue)) && |captured| == |queue|
  {
    var k := BlockOf(RxBlocks(queue), |queue|, n);
    RepetitionSignal(queue, captured, k, RepetitionOf(RxBlocks(queue), n))
  }

  /** The samples of repetition r in the capture of configuration k. */
  ghost function RepetitionSignal(queue: seq<RxStreamingConfig>, captured: seq<MimoSignal>, k: nat, r: nat): MimoSignal
    requires k < |queue| == |captured|
  {
    CutOut(captured[k], RepetitionStart(queue[k], r), queue[k].numSamples)
  }

  lemma RxReplays(queue: seq<RxStreamingConfig>, k: nat)
    requires k < |queue| && ValidRx(queue[k])
    ensures RxBlocks(queue)[k].Replays() == queue[k].numRepetitions
  {
    assert RxBlocks(queue)[k] == RxBlock(queue[k]);
  }

  lemma ExpectedNumbered(queue: seq<RxStreamingConfig>, captured: seq<MimoSignal>, n: nat, k: nat, r: nat)
    requires |captured| == |queue| && k < |queue| && n < TotalReplays(RxBlocks(queue))
    requires BlockOf(RxBlocks(queue), |queue|, n) == k && RepetitionOf(RxBlocks(queue), n) == r
    ensures Expected(queue, captured, n) == RepetitionSignal(queue, captured, k, r)
  {
  }

  lemma ExpectedAt(queue: seq<RxStreamingConfig>, captured: seq<MimoSignal>, k: nat, r: nat)
    requires |captured| == |queue| && k < |queue| && ValidRx(queue[k]) && r < queue[k].numRepetitions
    ensures var n := ReplaysBefore(RxBlocks(queue), k) + r;
            && n < TotalReplays(RxBlocks(queue))
            && Expected(queue, captured, n) == RepetitionSignal(queue, captured, k, r)
  {
    var n := ReplaysBefore(RxBlocks(queue), k) + r;
    RxReplays(queue, k);
    WindowUnique(RxBlocks(queue), n, k, r);
    ExpectedNumbered(queue, captured, n, k, r);
  }

  /** A cued port plays from the start of the repetition in the region of its stream. */
  lemma CuedPort(b: Burst, v: TrackerView, d: Device, k: nat, r: nat, p: nat, n: nat)
    requires v.streams == b.numRx && k < |v.blocks| && r < v.blocks[k].repetitions && p < b.numRx
    requires Cued(d, b.numRx, RxBufferOffset(b.memSize), v, n)
    requires v.replays == ReplaysBefore(v.blocks, k) + r + 1
    ensures d.play[p] == PlayPort(RxAddress(b, v.blocks, k, p) + SAMPLE_SIZE * (r * v.blocks[k].repetitionPeriod),
                                  SAMPLE_SIZE * n)
  {
    WindowUnique(v.blocks, v.replays - 1, k, r);
  }

  ghost function RepetitionAddress(b: Burst, blocks: seq<ReplayBlock>, k: nat, r: nat, p: nat): nat
    requires k < |blocks| && k < |b.rxQueue|
  {
    RxAddress(b, blocks, k, p) + SAMPLE_SIZE * RepetitionStart(b.rxQueue[k], r)
  }

  /** Memory holds the samples from .. from + n of `xs` at this address. */
  ghost predicate HoldsPart(mem: seq<Byte>, address: nat, xs: seq<Sample>, from: nat, n: nat) {
    from + n <= |xs| && Holds(mem, address, xs[from..from + n])
  }

  /** In terms of the configuration the block was reserved for. */
  lemma CuedStart(b: Burst, v: TrackerView, d: Device, k: nat, r: nat, p: nat)
    requires v.streams == b.numRx && v.blocks == RxBlocks(b.rxQueue) && k < |b.rxQueue|
    requires r < b.rxQueue[k].numRepetitions && p < b.numRx
    requires Cued(d, b.numRx, RxBufferOffset(b.memSize), v, b.rxQueue[k].WordAlignedNoSamples())
    requires v.replays == ReplaysBefore(v.blocks, k) + r + 1
    ensures d.play[p] == PlayPort(RepetitionAddress(b, v.blocks, k, r, p),
                                  SAMPLE_SIZE * b.rxQueue[k].WordAlignedNoSamples())
  {
    assert v.blocks[k].repetitionPeriod == b.rxQueue[k].Period();
    assert v.blocks[k].repetitions == b.rxQueue[k].numRepetitions;
    CuedPort(b, v, d, k, r, p, b.rxQueue[k].WordAlignedNoSamples());
  }

  lemma RepetitionFits(period: nat, reps: nat, r: nat, n: nat)
    requires r < reps && n <= period
    ensures 0 <= r * period <= r * period + n <= period * reps
  {
    MulMonotone(period, r + 1, reps);
    assert period * (r + 1) == r * period + period;
  }

  /** Memory holds, from where a repetition starts, the part of the capture it stands for. */
  lemma RepetitionHeld(b: Burst, v: TrackerView, mem: seq<Byte>, captured: seq<MimoSignal>, k: nat, r: nat, p: nat)
    requires Stored(b, v, mem, captured) && k < |b.rxQueue| && r < b.rxQueue[k].numRepetitions && p < b.numRx
    requires b.rxQueue[k].WordAlignedNoSamples() <= b.rxQueue[k].Period()
    ensures HoldsPart(mem, RepetitionAddress(b, v.blocks, k, r, p), captured[k][p],
                      RepetitionStart(b.rxQueue[k], r), b.rxQueue[k].WordAlignedNoSamples())
  {
    var aligned, period := b.rxQueue[k].WordAlignedNoSamples(), b.rxQueue[k].Period();
    var from := RepetitionStart(b.rxQueue[k], r);
    assert v.blocks[k] == RxBlock(b.rxQueue[k]);
    assert Captured(mem, RxAddress(b, v.blocks, k, p), v.blocks[k].TotalSamples(), captured[k][p], true);
    RepetitionFits(period, b.rxQueue[k].numRepetitions, r, aligned);
    HoldsSlice(mem, RxAddress(b, v.blocks, k, p), captured[k][p], from, from + aligned);
  }

  /** The ports cued for a repetition can play it: every window is in memory. */
  lemma CuedIsPlayable(b: Burst, v: TrackerView, d: Device, captured: seq<MimoSignal>, k: nat, r: nat)
    requires Stored(b, v, d.mem, captured) && k < |b.rxQueue| && r < b.rxQueue[k].numRepetitions
    requires b.rxQueue[k].WordAlignedNoSamples() <= b.rxQueue[k].Period()
    requires Cued(d, b.numRx, RxBufferOffset(b.memSize), v, b.rxQueue[k].WordAlignedNoSamples())
    requires v.replays == ReplaysBefore(v.blocks, k) + r + 1
    ensures Playable(d, b.numRx, b.rxQueue[k].WordAlignedNoSamples())
  {
    forall p | 0 <= p < b.numRx
      ensures d.play[p].size == SAMPLE_SIZE * b.rxQueue[k].WordAlignedNoSamples()
      ensures d.play[p].offset + d.play[p].size <= |d.mem|
    {
      CuedStart(b, v, d, k, r, p);
      RepetitionHeld(b, v, d.mem, captured, k, r, p);
    }
  }

  /** What a port cued for a repetition plays is the part of the capture that repetition stands for. */
  lemma RepetitionPlays(b: Burst, v: TrackerView, d: Device, captured: seq<MimoSignal>, k: nat, r: nat, p: nat)
    requires Stored(b, v, d.mem, captured) && k < |b.rxQueue| && r < b.rxQueue[k].numRepetitions && p < b.numRx
    requires b.rxQueue[k].WordAlignedNoSamples() <= b.rxQueue[k].Period()
    requires Cued(d, b.numRx, RxBufferOffset(b.memSize), v, b.rxQueue[k].WordAlignedNoSamples())
    requires v.replays == ReplaysBefore(v.blocks, k) + r + 1
    requires Playable(d, b.numRx, b.rxQueue[k].WordAlignedNoSamples())  // see CuedIsPlayable
    ensures IsSlice(captured[k][p], StreamOut(d, b.numRx, b.rxQueue[k].WordAlignedNoSamples())[p],
                    RepetitionStart(b.rxQueue[k], r), b.rxQueue[k].WordAlignedNoSamples())
  {
    var aligned, from := b.rxQueue[k].WordAlignedNoSamples(), RepetitionStart(b.rxQueue[k], r);
    CuedStart(b, v, d, k, r, p);
    RepetitionHeld(b, v, d.mem, captured, k, r, p);
    StreamOutIsStored(d, b.numRx, aligned, p, captured[k][p], from);
  }

  /** What is downloaded of a cued window and then shortened is the expected signal. */
  lemma DownloadIsExpected(b: Burst, v: TrackerView, d: Device, captured: seq<MimoSignal>, k: nat, r: nat,
                           shortened: MimoSignal)
    requires Stored(b, v, d.mem, captured) && k < |b.rxQueue| && r < b.rxQueue[k].numRepetitions
    requires b.rxQueue[k].WordAlignedNoSamples() <= b.rxQueue[k].Period()
    requires Cued(d, b.numRx, RxBufferOffset(b.memSize), v, b.rxQueue[k].WordAlignedNoSamples())
    requires v.replays == ReplaysBefore(v.blocks, k) + r + 1
    requires Playable(d, b.numRx, b.rxQueue[k].WordAlignedNoSamples())  // see CuedIsPlayable
    requires AllResized(StreamOut(d, b.numRx, b.rxQueue[k].WordAlignedNoSamples()), shortened,
                        b.rxQueue[k].numSamples)
    ensures shortened == CutOut(captured[k], RepetitionStart(b.rxQueue[k], r), b.rxQueue[k].numSamples)
  {
    RepetitionStreams(b, v, d, captured, k, r);
    ShortenedIsCutOut(captured[k], StreamOut(d, b.numRx, b.rxQueue[k].WordAlignedNoSamples()), shortened,
                      RepetitionStart(b.rxQueue[k], r), b.rxQueue[k].WordAlignedNoSamples(), b.rxQueue[k].numSamples);
  }

  /** `out` is the samples from .. from + n of every channel of `signal`. */
  ghost predicate IsPart(signal: MimoSignal, out: MimoSignal, from: nat, n: nat) {
    |out| == |signal| && forall p | 0 <= p < |signal| :: IsSlice(signal[p], out[p], from, n)
  }

  ghost predicate IsSlice(xs: seq<Sample>, ys: seq<Sample>, from: nat, n: nat) {
    from + n <= |xs| && ys == xs[from..from + n]
  }

  lemma RepetitionStreams(b: Burst, v: TrackerView, d: Device, captured: seq<MimoSignal>, k: nat, r: nat)
    requires Stored(b, v, d.mem, captured) && k < |b.rxQueue| && r < b.rxQueue[k].numRepetitions
    requires b.rxQueue[k].WordAlignedNoSamples() <= b.rxQueue[k].Period()
    requires Cued(d, b.numRx, RxBufferOffset(b.memSize), v, b.rxQueue[k].WordAlignedNoSamples())
    requires v.replays == ReplaysBefore(v.blocks, k) + r + 1
    requires Playable(d, b.numRx, b.rxQueue[k].WordAlignedNoSamples())
    ensures IsPart(captured[k], StreamOut(d, b.numRx, b.rxQueue[k].WordAlignedNoSamples()),
                   RepetitionStart(b.rxQueue[k], r), b.rxQueue[k].WordAlignedNoSamples())
  {
    var out := StreamOut(d, b.numRx, b.rxQueue[k].WordAlignedNoSamples());
    forall p | 0 <= p < b.numRx
      ensures IsSlice(captured[k][p], out[p], RepetitionStart(b.rxQueue[k], r), b.rxQueue[k].WordAlignedNoSamples())
    {
      RepetitionPlays(b, v, d, captured, k, r, p);
    }
  }

  lemma ShortenedIsCutOut(signal: MimoSignal, out: MimoSignal, shortened: MimoSignal, from: nat, aligned: nat, n: nat)
    requires n <= aligned && AllResized(out, shortened, n) && IsPart(signal, out, from, aligned)
    ensures shortened == CutOut(signal, from, n)
  {
    forall p | 0 <= p < |signal| ensures shortened[p] == CutOut(signal, from, n)[p] {
      assert IsSlice(signal[p], out[p], from, aligned);
      assert shortened[p] == out[p][..n];
      assert signal[p][from..from + aligned][..n] == signal[p][from..from + n];
    }
  }

  /** A window played once over yields its contents. */
  lemma StreamOutIsStored(d: Device, c: nat, n: nat, p: nat, xs: seq<Sample>, from: nat)
    requires Playable(d, c, n) && p < c <= |d.play|
    requires d.play[p].size == SAMPLE_SIZE * n && HoldsPart(d.mem, d.play[p].offset, xs, from, n)
    ensures StreamOut(d, c, n)[p] == xs[from..from + n]
  {
    forall i | 0 <= i < n ensures StreamOut(d, c, n)[p][i] == xs[from..from + n][i] {
      PlaysCyclic(d, p, xs[from..from + n], i);
      DivModUnique(i, n, 0, i);
    }
  }

  /** Download of every repetition of every queued configuration. */
  method PerformDownload(replay: ReplayBlockConfig, graph: RfNocFullDuplexGraph, queue: seq<RxStreamingConfig>,
                         numRx: nat, answers: nat -> DownloadAnswer, ghost captured: seq<MimoSignal>)
    returns (r: Result<seq<MimoSignal>>)
    requires replay.Valid() && graph.hw == replay.hw && replay.rxBlocks.View().Settled()
    requires numRx == replay.numRxStreams
    requires forall i | 0 <= i < |queue| :: ValidRx(queue[i])
    modifies replay.rxBlocks, replay.hw
    ensures replay.Valid() && replay.rxBlocks.View().Settled()
    ensures replay.txBlocks.View() == old(replay.txBlocks.View())
    ensures KeptRx(old(replay.rxBlocks.View()), replay.rxBlocks.View())
    ensures SameStorage(old(replay.hw.device), replay.hw.device)
    ensures Drained(old(replay.rxBlocks.View())) ==> Drained(replay.rxBlocks.View())
    ensures numRx != graph.numRxStreams ==> r == Failure(ChannelMismatch) && replay.View() == old(replay.View())
    ensures r.Success? ==>
              && |r.value| == TotalReplays(RxBlocks(queue))
              && (queue != [] ==> old(replay.rxBlocks.overrunAt).None? && replay.rxBlocks.overrunAt.None?)
              && (queue != [] ==>
                    replay.rxBlocks.replays == old(replay.rxBlocks.replays) + |r.value|
                      <= TotalReplays(replay.rxBlocks.replayBlocks))
    ensures queue == [] ==> replay.View() == old(replay.View())
    ensures queue == [] && numRx == graph.numRxStreams ==> r == Success([])
    ensures r.Success? ==> DownloadedRight(queue, numRx, replay.memSize, old(replay.rxBlocks.View()),
                                           old(replay.hw.device).mem, r.value, captured)
    ensures r.Failure? && numRx == graph.numRxStreams ==>
              && FairFailure(queue, numRx, replay.memSize, old(replay.rxBlocks.View()), old(replay.hw.device).mem,
                             captured, r.error)
              && CursorFailure(old(replay.rxBlocks.View()), replay.rxBlocks.View(), replay.memSize, queue, r.error)
              && (DeviceFault(r.error) ==> Reported(queue, answers, r.error))
    ensures r.Success? ==> AnswersClean(queue, answers, TotalReplays(RxBlocks(queue)))
  {
    var connected := graph.ConnectForDownload(numRx);
    if connected.Fail? {
      return Failure(connected.error);
    }
    ghost var v0, d0 := replay.rxBlocks.View(), replay.hw.device;
    var received :- DownloadAll(replay, graph, queue, answers, captured);
    DownloadedAll(queue, numRx, replay.memSize, v0, replay.rxBlocks.View(), d0, replay.hw.device, received, captured);
    r := Success(received);
  }

  lemma DownloadedAll(queue: seq<RxStreamingConfig>, numRx: nat, memSize: nat, v: TrackerView, v': TrackerView,
                      d: Device, d': Device, received: seq<MimoSignal>, captured: seq<MimoSignal>)
    requires DownloadedSoFar(queue, numRx, memSize, v, v', d, d', received, captured, |queue|, 0)
    ensures |received| == TotalReplays(RxBlocks(queue))
    ensures queue != [] ==>
              && v.overrunAt.None? && v'.overrunAt.None?
              && v'.replays == v.replays + |received| <= TotalReplays(v'.blocks)
    ensures queue == [] ==> v' == v && received == []
  {
    ReplaysBeforeMonotone(RxBlocks(queue), 0, |queue|);
  }

  /** Configuration after configuration, as long as the downloads succeed. */
  method DownloadAll(replay: ReplayBlockConfig, graph: RfNocFullDuplexGraph, queue: seq<RxStreamingConfig>,
                     answers: nat -> DownloadAnswer, ghost captured: seq<MimoSignal>)
    returns (r: Result<seq<MimoSignal>>)
    requires replay.Valid() && graph.hw == replay.hw && replay.rxBlocks.View().Settled()
    requires graph.numRxStreams == replay.numRxStreams
    requires forall i | 0 <= i < |queue| :: ValidRx(queue[i])
    modifies replay.rxBlocks, replay.hw
    ensures replay.Valid() && replay.rxBlocks.View().Settled()
    ensures replay.txBlocks.View() == old(replay.txBlocks.View())
    ensures queue == [] ==> r.Success? && replay.hw.device == old(replay.hw.device)
    ensures r.Success? ==>
              DownloadedSoFar(queue, replay.numRxStreams, replay.memSize, old(replay.rxBlocks.View()),
                              replay.rxBlocks.View(), old(replay.hw.device), replay.hw.device,
                              r.value, captured, |queue|, 0)
              && AnswersClean(queue, answers, |r.value|)
    ensures r.Failure? ==>
              StoppedEarly(queue, replay.numRxStreams, replay.memSize, old(replay.rxBlocks.View()),
                           replay.rxBlocks.View(), old(replay.hw.device), replay.hw.device, captured, answers, r.error)
  {
    var received: seq<MimoSignal> := [];
    ghost var v0, d0 := replay.rxBlocks.View(), replay.hw.device;
    NothingDownloaded(queue, replay.numRxStreams, replay.memSize, v0, d0, captured);
    for i := 0 to |queue|
      invariant replay.Valid() && replay.rxBlocks.View().Settled()
      invariant replay.txBlocks.View() == old(replay.txBlocks.View())
      invariant DownloadedSoFar(queue, replay.numRxStreams, replay.memSize, v0, replay.rxBlocks.View(), d0,
                                replay.hw.device, received, captured, i, 0)
      invariant AnswersClean(queue, answers, |received|)
      invariant i == 0 ==> replay.hw.device == d0
    {
      received :- DownloadConfig(replay, graph, queue, i, answers, received, captured, v0, d0);
    }
    r := Success(received);
  }

  lemma NothingDownloaded(queue: seq<RxStreamingConfig>, numRx: nat, memSize: nat, v: TrackerView, d: Device,
                          captured: seq<MimoSignal>)
    ensures DownloadedSoFar(queue, numRx, memSize, v, v, d, d, [], captured, 0, 0)
  {
  }

  /** Download of every repetition of one configuration, after what has been received so far. */
  method DownloadConfig(replay: ReplayBlockConfig, graph: RfNocFullDuplexGraph, queue: seq<RxStreamingConfig>, i: nat,
                        answers: nat -> DownloadAnswer, before: seq<MimoSignal>, ghost captured: seq<MimoSignal>,
                        ghost v0: TrackerView, ghost d0: Device)
    returns (r: Result<seq<MimoSignal>>)
    requires replay.Valid() && graph.hw == replay.hw && replay.rxBlocks.View().Settled()
    requires graph.numRxStreams == replay.numRxStreams
    requires i < |queue| && ValidRx(queue[i])
    requires DownloadedSoFar(queue, replay.numRxStreams, replay.memSize, v0, replay.rxBlocks.View(), d0,
                             replay.hw.device, before, captured, i, 0)
    requires AnswersClean(queue, answers, |before|)
    modifies replay.rxBlocks, replay.hw
    ensures replay.Valid() && replay.rxBlocks.View().Settled()
    ensures replay.txBlocks.View() == old(replay.txBlocks.View())
    ensures r.Success? ==>
              && DownloadedSoFar(queue, replay.numRxStreams, replay.memSize, v0, replay.rxBlocks.View(),
                                 d0, replay.hw.device, r.value, captured, i + 1, 0)
              && AnswersClean(queue, answers, |r.value|)
    ensures r.Failure? ==>
              StoppedEarly(queue, replay.numRxStreams, replay.memSize, v0, replay.rxBlocks.View(), d0,
                           replay.hw.device, captured, answers, r.error)
  {
    var received := before;
    for rep := 0 to queue[i].numRepetitions
      invariant replay.Valid() && replay.rxBlocks.View().Settled()
      invariant replay.txBlocks.View() == old(replay.txBlocks.View())
      invariant DownloadedSoFar(queue, replay.numRxStreams, replay.memSize, v0, replay.rxBlocks.View(), d0,
                            replay.hw.device, received, captured, i, rep)
      invariant AnswersClean(queue, answers, |received|)
    {
      ghost var v, mem := replay.rxBlocks.View(), replay.hw.device.mem;
      var answer := answers(|received|);
      var one := DownloadOne(replay, graph, queue, i, rep, answer, captured);
      if one.Failure? {
        DownloadStops(queue, replay.numRxStreams, replay.memSize, v0, v, replay.rxBlocks.View(), d0, replay.hw.device,
                      mem, received, captured, answers, i, rep, one.error);
        return Failure(one.error);
      }
      AnsweredClean(queue, answers, i, rep, |received|);
      DownloadedOneMore(queue, replay.numRxStreams, replay.memSize, v0, v, mem, received, captured, i, rep, one.value);
      received := received + [one.value];
    }
    r := Success(received);
  }

  /** Download of one repetition of one configuration, cut to the samples asked for. */
  method DownloadOne(replay: ReplayBlockConfig, graph: RfNocFullDuplexGraph, queue: seq<RxStreamingConfig>,
                     i: nat, ghost rep: nat, answer: DownloadAnswer, ghost captured: seq<MimoSignal>)
    returns (r: Result<MimoSignal>)
    requires replay.Valid() && graph.hw == replay.hw && replay.rxBlocks.View().Settled()
    requires graph.numRxStreams == replay.numRxStreams
    requires i < |queue|
    modifies replay.rxBlocks, replay.hw
    ensures replay.Valid() && replay.rxBlocks.View().Settled()
    ensures replay.txBlocks.View() == old(replay.txBlocks.View())
    ensures KeptRx(old(replay.rxBlocks.View()), replay.rxBlocks.View())
    ensures SameStorage(old(replay.hw.device), replay.hw.device)
    ensures Drained(old(replay.rxBlocks.View())) ==> Drained(replay.rxBlocks.View())
    ensures r.Success? ==>
              && old(replay.rxBlocks.overrunAt).None? && replay.rxBlocks.overrunAt.None?
              && replay.rxBlocks.replays == old(replay.rxBlocks.replays) + 1
                   <= TotalReplays(replay.rxBlocks.replayBlocks)
              && BringsRepetition(Burst(replay.memSize, 0, replay.numRxStreams, [], queue),
                                  old(replay.rxBlocks.View()), old(replay.hw.device).mem, captured, i, rep, r.value)
    ensures r.Failure? ==>
              && FailsFairly(Burst(replay.memSize, 0, replay.numRxStreams, [], queue),
                          old(replay.rxBlocks.View()), old(replay.hw.device).mem, captured, i, rep, r.error)
              && OneFailure(old(replay.rxBlocks.View()), replay.rxBlocks.View(), replay.memSize, replay.hw.device,
                            queue[i].WordAlignedNoSamples(), answer, r.error)
    ensures r.Success? ==> DownloadFailure(answer, queue[i].WordAlignedNoSamples()) == None
  {
    var config := queue[i];
    var aligned := config.WordAlignedNoSamples();
    var cued := replay.ConfigDownload(aligned);
    if cued.Fail? {
      RefusedFairly(replay.memSize, replay.numRxStreams, queue, old(replay.rxBlocks.View()), replay.hw.device.mem,
                    captured, i, rep, cued.error);
      return Failure(cued.error);
    }
    FailedFairly(replay.memSize, replay.numRxStreams, queue, old(replay.rxBlocks.View()), replay.rxBlocks.View(),
                 replay.hw.device, captured, i, rep);
    var signal, requests := graph.Download(aligned, answer);
    if signal.Failure? {
      if !Playable(replay.hw.device, replay.numRxStreams, aligned) {
        BadWindowIsOutside(replay.memSize, old(replay.rxBlocks.View()), replay.rxBlocks.View(), replay.hw.device,
                           aligned);
      }
      return Failure(signal.error);
    }
    StreamOutLength(replay.hw.device, replay.numRxStreams, aligned);
    var buffer := new MimoBuffer(signal.value);
    var shortened := buffer.ShortenSignal(config.numSamples);
    if shortened.Pass? {
      DownloadBrings(replay.memSize, replay.numRxStreams, queue, old(replay.rxBlocks.View()), replay.rxBlocks.View(),
                     replay.hw.device, captured, i, rep, buffer.channels);
    }
    r := if shortened.Pass? then Success(buffer.channels) else Failure(SignalTooShort);
  }

  /** If the cursor has just passed the downloads before repetition rep of configuration i, then
      this signal is that repetition. */
  ghost predicate BringsRepetition(b: Burst, v: TrackerView, mem: seq<Byte>, captured: seq<MimoSignal>,
                                   i: nat, rep: nat, signal: MimoSignal)
    requires i < |b.rxQueue|
  {
    Stored(b, v, mem, captured) && rep < b.rxQueue[i].numRepetitions
    && v.replays == ReplaysBefore(RxBlocks(b.rxQueue), i) + rep ==>
      signal == RepetitionSignal(b.rxQueue, captured, i, rep)
  }

  /** If the cursor stood before repetition rep of configuration i, and a stream count is set, a
      download fails only for reasons of the device. */
  ghost predicate FailsFairly(b: Burst, v: TrackerView, mem: seq<Byte>, captured: seq<MimoSignal>,
                              i: nat, rep: nat, e: UsrpError)
    requires i < |b.rxQueue|
  {
    Stored(b, v, mem, captured) && v.overrunAt.None? && b.numRx > 0 && rep < b.rxQueue[i].numRepetitions
    && v.replays == ReplaysBefore(RxBlocks(b.rxQueue), i) + rep ==>
      DeviceFault(e)
  }

  /** If nothing had been downloaded and a stream count is set, a download of the whole queue fails
      only for reasons of the device. */
  ghost predicate FairFailure(queue: seq<RxStreamingConfig>, numRx: nat, memSize: nat, v: TrackerView,
                              mem: seq<Byte>, captured: seq<MimoSignal>, e: UsrpError)
  {
    Stored(Burst(memSize, 0, numRx, [], queue), v, mem, captured) && v.AtStart() && numRx > 0 ==>
      DeviceFault(e)
  }

  /** A download that fails: the cursor refused it, or else the windows are not in memory, or else
      the failure is what the device has answered. The cursor has taken the request into account. */
  ghost predicate OneFailure(v: TrackerView, v': TrackerView, memSize: nat, d': Device, length: nat,
                             answer: DownloadAnswer, e: UsrpError)
  {
    && v' == v.AfterReplay()
    && match v.ReplayOutcome()
       case Fail(refusal) => e == refusal
       case Pass =>
         if Playable(d', v.streams, length) then DownloadFailure(answer, length) == Some(e)
         else e == BadWindow && RequestOutside(v, memSize, v.replays, length)
  }

  /** A window of this length for request m reaches beyond the memory, on some stream. */
  ghost predicate RequestOutside(v: TrackerView, memSize: nat, m: nat, length: nat) {
    m < TotalReplays(v.blocks) && exists p: nat :: WindowOutside(v, memSize, m, p, length)
  }

  ghost predicate WindowOutside(v: TrackerView, memSize: nat, m: nat, p: nat, length: nat)
    requires m < TotalReplays(v.blocks)
  {
    p < v.streams && RxBufferOffset(memSize) + SAMPLE_SIZE * (WindowStart(v.blocks, v.streams, m, p) + length) > memSize
  }

  lemma BadWindowIsOutside(memSize: nat, v: TrackerView, v': TrackerView, d: Device, length: nat)
    requires v' == v.(replays := v.replays + 1) && |d.mem| == memSize
    requires Cued(d, v.streams, RxBufferOffset(memSize), v', length) && !Playable(d, v.streams, length)
    ensures RequestOutside(v, memSize, v.replays, length)
  {
    var p: nat :| p < v.streams && (d.play[p].size < SAMPLE_SIZE || d.play[p].offset + d.play[p].size > |d.mem|);
    assert WindowOutside(v, memSize, v.replays, p, length);
  }

  // The answers of the device to the downloads of a queue, numbered through.

  /** The failure that download n of a queue stands for by the answer of the device, if any. */
  function FailureAt(queue: seq<RxStreamingConfig>, answers: nat -> DownloadAnswer, n: nat): Option<UsrpError>
    requires n < TotalReplays(RxBlocks(queue))
  {
    DownloadFailure(answers(n), queue[BlockOf(RxBlocks(queue), |queue|, n)].WordAlignedNoSamples())
  }

  /** The device has no failure to report for the first n downloads. */
  ghost predicate AnswersClean(queue: seq<RxStreamingConfig>, answers: nat -> DownloadAnswer, n: nat) {
    n <= TotalReplays(RxBlocks(queue)) && forall m | 0 <= m < n :: FailureAt(queue, answers, m) == None
  }

  /** Download n is the first for which the device reports a failure, and it is this one. */
  ghost predicate FailsFirstAt(queue: seq<RxStreamingConfig>, answers: nat -> DownloadAnswer, n: nat, e: UsrpError) {
    AnswersClean(queue, answers, n) && n < TotalReplays(RxBlocks(queue)) && FailureAt(queue, answers, n) == Some(e)
  }

  ghost predicate Reported(queue: seq<RxStreamingConfig>, answers: nat -> DownloadAnswer, e: UsrpError) {
    exists n: nat :: FailsFirstAt(queue, answers, n, e)
  }

  /** A failure is reported only if not all answers are clean. */
  lemma ReportedIsNotClean(queue: seq<RxStreamingConfig>, answers: nat -> DownloadAnswer, e: UsrpError)
    requires Reported(queue, answers, e)
    ensures !AnswersClean(queue, answers, TotalReplays(RxBlocks(queue)))
  {
  }

  lemma AnswerAt(queue: seq<RxStreamingConfig>, answers: nat -> DownloadAnswer, i: nat, rep: nat, n: nat)
    requires i < |queue| && ValidRx(queue[i]) && rep < queue[i].numRepetitions
    requires n == ReplaysBefore(RxBlocks(queue), i) + rep
    ensures n < TotalReplays(RxBlocks(queue))
    ensures FailureAt(queue, answers, n) == DownloadFailure(answers(n), queue[i].WordAlignedNoSamples())
  {
    RxReplays(queue, i);
    WindowUnique(RxBlocks(queue), n, i, rep);
  }

  lemma AnsweredClean(queue: seq<RxStreamingConfig>, answers: nat -> DownloadAnswer, i: nat, rep: nat, n: nat)
    requires i < |queue| && ValidRx(queue[i]) && rep < queue[i].numRepetitions
    requires n == ReplaysBefore(RxBlocks(queue), i) + rep && AnswersClean(queue, answers, n)
    requires DownloadFailure(answers(n), queue[i].WordAlignedNoSamples()) == None
    ensures AnswersClean(queue, answers, n + 1)
  {
    AnswerAt(queue, answers, i, rep, n);
  }

  lemma AnsweredFailure(queue: seq<RxStreamingConfig>, answers: nat -> DownloadAnswer, i: nat, rep: nat, n: nat,
                        e: UsrpError)
    requires i < |queue| && ValidRx(queue[i]) && rep < queue[i].numRepetitions
    requires n == ReplaysBefore(RxBlocks(queue), i) + rep && AnswersClean(queue, answers, n)
    requires DownloadFailure(answers(n), queue[i].WordAlignedNoSamples()) == Some(e)
    ensures Reported(queue, answers, e)
  {
    AnswerAt(queue, answers, i, rep, n);
    assert FailsFirstAt(queue, answers, n, e);
  }

  /** What a failed download of a whole queue says of the cursor: it is out of range exactly when
      a request had been refused before; it overruns now exactly when there are too many requests,
      and certainly when there was none left to answer. Other failures are those of the device, or
      come from a window longer than what was recorded. */
  ghost predicate CursorFailure(v: TrackerView, v': TrackerView, memSize: nat, queue: seq<RxStreamingConfig>,
                                e: UsrpError)
  {
    && (e == StreamCountNotSet <==> v.streams == 0)
    && (e == BadWindow ==> SomeOutside(v, memSize, queue))
    && (DeviceFault(e) || e in {StreamCountNotSet, OutOfRange, TooManyReplays, BadWindow})
    && (e == OutOfRange <==> v.streams > 0 && v.overrunAt.Some?)
    && (e == TooManyReplays <==> v.overrunAt.None? && v'.overrunAt.Some?)
    && (v.streams > 0 && v.Exhausted() ==> e == TooManyReplays)
  }

  lemma DownloadStops(queue: seq<RxStreamingConfig>, numRx: nat, memSize: nat,
                      v0: TrackerView, v: TrackerView, v': TrackerView, d0: Device, d': Device, mem: seq<Byte>,
                      received: seq<MimoSignal>, captured: seq<MimoSignal>, answers: nat -> DownloadAnswer,
                      i: nat, rep: nat, e: UsrpError)
    requires i < |queue| && ValidRx(queue[i]) && rep < queue[i].numRepetitions
    requires |received| == ReplaysBefore(RxBlocks(queue), i) + rep && v.replays == v0.replays + |received|
    requires received == [] ==> v == v0
    requires received != [] ==> v0.overrunAt.None? && v.overrunAt.None? && v.replays <= TotalReplays(v.blocks)
    requires KeptRx(v0, v) && KeptRx(v, v') && SameStorage(d0, d') && mem == d0.mem && v.streams == numRx
    requires (Drained(v0) ==> Drained(v)) && (Drained(v) ==> Drained(v'))
    requires AnswersClean(queue, answers, |received|)
    requires FailsFairly(Burst(memSize, 0, numRx, [], queue), v, mem, captured, i, rep, e)
    requires OneFailure(v, v', memSize, d', queue[i].WordAlignedNoSamples(), answers(|received|), e)
    ensures StoppedEarly(queue, numRx, memSize, v0, v', d0, d', captured, answers, e)
  {
    FailedAfter(queue, numRx, memSize, v0, v, mem, received, captured, i, rep, e);
    FailedCursorAfter(v0, v, v', memSize, d', queue, i, answers(|received|), |received|, e);
    if DeviceFault(e) {
      AnsweredFailure(queue, answers, i, rep, |received|, e);
    }
  }

  /** How a download of a whole queue fails. */
  ghost predicate StoppedEarly(queue: seq<RxStreamingConfig>, numRx: nat, memSize: nat,
                               v: TrackerView, v': TrackerView, d: Device, d': Device,
                               captured: seq<MimoSignal>, answers: nat -> DownloadAnswer, e: UsrpError)
  {
    && KeptRx(v, v') && SameStorage(d, d') && (Drained(v) ==> Drained(v'))
    && FairFailure(queue, numRx, memSize, v, d.mem, captured, e) && CursorFailure(v, v', memSize, queue, e)
    && (DeviceFault(e) ==> Reported(queue, answers, e))
  }

  ghost predicate SomeOutside(v: TrackerView, memSize: nat, queue: seq<RxStreamingConfig>) {
    exists i, m :: 0 <= i < |queue| && 0 <= m && RequestOutside(v, memSize, m, queue[i].WordAlignedNoSamples())
  }

  lemma FailedCursorAfter(v0: TrackerView, v: TrackerView, v': TrackerView, memSize: nat, d': Device,
                          queue: seq<RxStreamingConfig>, i: nat, answer: DownloadAnswer, received: nat, e: UsrpError)
    requires KeptRx(v0, v) && i < |queue|
    requires OneFailure(v, v', memSize, d', queue[i].WordAlignedNoSamples(), answer, e)
    requires received == 0 ==> v == v0
    requires received > 0 ==> v0.overrunAt.None? && v.overrunAt.None?
    requires received > 0 ==> v.replays == v0.replays + received <= TotalReplays(v.blocks)
    ensures CursorFailure(v0, v', memSize, queue, e)
  {
    if e == BadWindow {
      OutsideKept(v0, v, memSize, queue, i);
    }
  }

  lemma OutsideKept(v0: TrackerView, v: TrackerView, memSize: nat, queue: seq<RxStreamingConfig>, i: nat)
    requires KeptRx(v0, v) && i < |queue| && RequestOutside(v, memSize, v.replays, queue[i].WordAlignedNoSamples())
    ensures SomeOutside(v0, memSize, queue)
  {
    var p: nat :| WindowOutside(v, memSize, v.replays, p, queue[i].WordAlignedNoSamples());
    assert WindowOutside(v0, memSize, v.replays, p, queue[i].WordAlignedNoSamples());
    assert RequestOutside(v0, memSize, v.replays, queue[i].WordAlignedNoSamples());
  }

  lemma StreamOutLength(d: Device, c: nat, n: nat)
    requires Playable(d, c, n)
    ensures c > 0 ==> |StreamOut(d, c, n)[0]| == n
  {
  }

  lemma FailedAfter(queue: seq<RxStreamingConfig>, numRx: nat, memSize: nat, v0: TrackerView, v: TrackerView,
                    mem: seq<Byte>, received: seq<MimoSignal>, captured: seq<MimoSignal>,
                    i: nat, rep: nat, e: UsrpError)
    requires i < |queue| && rep < queue[i].numRepetitions && KeptRx(v0, v)
    requires |received| == ReplaysBefore(RxBlocks(queue), i) + rep && v.replays == v0.replays + |received|
    requires v0.overrunAt.None? ==> v.overrunAt.None?
    requires FailsFairly(Burst(memSize, 0, numRx, [], queue), v, mem, captured, i, rep, e)
    ensures FairFailure(queue, numRx, memSize, v0, mem, captured, e)
  {
    var b := Burst(memSize, 0, numRx, [], queue);
    if Stored(b, v0, mem, captured) && v0.replays == 0 {
      StoredKept(b, v0, v, mem, captured);
    }
  }

  lemma RefusedFairly(memSize: nat, numRx: nat, queue: seq<RxStreamingConfig>, v: TrackerView, mem: seq<Byte>,
                      captured: seq<MimoSignal>, i: nat, rep: nat, e: UsrpError)
    requires i < |queue| && v.ReplayOutcome() == Fail(e)
    ensures FailsFairly(Burst(memSize, 0, numRx, [], queue), v, mem, captured, i, rep, e)
  {
    var b := Burst(memSize, 0, numRx, [], queue);
    if Stored(b, v, mem, captured) && rep < queue[i].numRepetitions
       && v.replays == ReplaysBefore(RxBlocks(queue), i) + rep {
      assert v.blocks[i].Replays() == queue[i].numRepetitions;
      ReplaysBeforeMonotone(v.blocks, i + 1, |v.blocks|);
    }
  }

  lemma FailedFairly(memSize: nat, numRx: nat, queue: seq<RxStreamingConfig>, v: TrackerView, v': TrackerView,
                     d: Device, captured: seq<MimoSignal>, i: nat, rep: nat)
    requires i < |queue| && v' == v.(replays := v.replays + 1)
    requires Cued(d, numRx, RxBufferOffset(memSize), v', queue[i].WordAlignedNoSamples())
    ensures Playable(d, numRx, queue[i].WordAlignedNoSamples())
            || FailsFairly(Burst(memSize, 0, numRx, [], queue), v, d.mem, captured, i, rep, BadWindow)
  {
    var b := Burst(memSize, 0, numRx, [], queue);
    if Stored(b, v, d.mem, captured) && rep < queue[i].numRepetitions
       && v.replays == ReplaysBefore(RxBlocks(queue), i) + rep {
      assert WellFormed(v.blocks[i], numRx);
      StoredKept(b, v, v', d.mem, captured);
      CuedIsPlayable(b, v', d, captured, i, rep);
    }
  }

  lemma DownloadBrings(memSize: nat, numRx: nat, queue: seq<RxStreamingConfig>, v: TrackerView, v': TrackerView,
                       d: Device, captured: seq<MimoSignal>, i: nat, rep: nat, signal: MimoSignal)
    requires i < |queue| && v' == v.(replays := v.replays + 1) && v.streams == numRx
    requires Cued(d, numRx, RxBufferOffset(memSize), v', queue[i].WordAlignedNoSamples())
    requires Playable(d, numRx, queue[i].WordAlignedNoSamples())
    requires AllResized(StreamOut(d, numRx, queue[i].WordAlignedNoSamples()), signal, queue[i].numSamples)
    ensures BringsRepetition(Burst(memSize, 0, numRx, [], queue), v, d.mem, captured, i, rep, signal)
  {
    var b := Burst(memSize, 0, numRx, [], queue);
    if Stored(b, v, d.mem, captured) && rep < queue[i].numRepetitions
       && v.replays == ReplaysBefore(RxBlocks(queue), i) + rep {
      assert WellFormed(v.blocks[i], numRx);
      StoredKept(b, v, v', d.mem, captured);
      DownloadIsExpected(b, v', d, captured, i, rep, signal);
    }
  }

  lemma StoredKept(b: Burst, v: TrackerView, v': TrackerView, mem: seq<Byte>, captured: seq<MimoSignal>)
    requires KeptRx(v, v') && Stored(b, v, mem, captured)
    ensures Stored(b, v', mem, captured)
  {
  }

  /** `received` is how the list of signals to expect begins. */
  ghost predicate BeginsExpected(queue: seq<RxStreamingConfig>, captured: seq<MimoSignal>, received: seq<MimoSignal>)
    requires |captured| == |queue|
  {
    && |received| <= TotalReplays(RxBlocks(queue))
    && forall n | 0 <= n < |received| :: received[n] == Expected(queue, captured, n)
  }

  lemma ExpectedGrows(queue: seq<RxStreamingConfig>, captured: seq<MimoSignal>, received: seq<MimoSignal>,
                      signal: MimoSignal)
    requires |captured| == |queue| && |received| < TotalReplays(RxBlocks(queue))
    requires BeginsExpected(queue, captured, received) && signal == Expected(queue, captured, |received|)
    ensures BeginsExpected(queue, captured, received + [signal])
  {
  }

  lemma DownloadedOneMore(queue: seq<RxStreamingConfig>, numRx: nat, memSize: nat, v0: TrackerView, v: TrackerView,
                          mem: seq<Byte>, received: seq<MimoSignal>, captured: seq<MimoSignal>,
                          i: nat, rep: nat, signal: MimoSignal)
    requires i < |queue| && ValidRx(queue[i]) && rep < queue[i].numRepetitions
    requires KeptRx(v0, v) && v.replays == v0.replays + |received|
    requires |received| == ReplaysBefore(RxBlocks(queue), i) + rep
    requires DownloadedRight(queue, numRx, memSize, v0, mem, received, captured)
    requires BringsRepetition(Burst(memSize, 0, numRx, [], queue), v, mem, captured, i, rep, signal)
    ensures DownloadedRight(queue, numRx, memSize, v0, mem, received + [signal], captured)
  {
    var b := Burst(memSize, 0, numRx, [], queue);
    if Stored(b, v0, mem, captured) && v0.replays == 0 {
      StoredKept(b, v0, v, mem, captured);
      ExpectedNext(queue, captured, received, i, rep, signal);
    }
  }

  lemma ExpectedNext(queue: seq<RxStreamingConfig>, captured: seq<MimoSignal>, received: seq<MimoSignal>,
                     i: nat, rep: nat, signal: MimoSignal)
    requires |captured| == |queue| && i < |queue| && ValidRx(queue[i]) && rep < queue[i].numRepetitions
    requires |received| == ReplaysBefore(RxBlocks(queue), i) + rep && BeginsExpected(queue, captured, received)
    requires signal == RepetitionSignal(queue, captured, i, rep)
    ensures BeginsExpected(queue, captured, received + [signal])
  {
    ExpectedAt(queue, captured, i, rep);
    ExpectedGrows(queue, captured, received, signal);
  }

  /** The replay cursor has passed, or overrun, everything recorded. */
  ghost predicate Drained(v: TrackerView) {
    v.overrunAt.Some? || v.replays == TotalReplays(v.blocks)
  }

  /** Nothing but the replay cursor of the tracker has changed, and it has not moved back. */
  ghost predicate KeptRx(v: TrackerView, v': TrackerView) {
    && v' == v.(replays := v'.replays, overrunAt := v'.overrunAt)
    && v.replays <= v'.replays && (v.overrunAt.Some? ==> v'.overrunAt.Some?)
  }

  ghost predicate SameStorage(d: Device, d': Device) {
    d'.mem == d.mem && d'.rec == d.rec && |d'.play| == |d.play|
  }

  /** After all repetitions of the first i configurations and rep of the next. */
  ghost predicate DownloadedSoFar(queue: seq<RxStreamingConfig>, numRx: nat, memSize: nat,
                                  v: TrackerView, v': TrackerView, d: Device, d': Device,
                                  received: seq<MimoSignal>, captured: seq<MimoSignal>, i: nat, rep: nat)
    requires i <= |queue|
  {
    && KeptRx(v, v') && SameStorage(d, d') && (Drained(v) ==> Drained(v'))
    && |received| == ReplaysBefore(RxBlocks(queue), i) + rep
    && v'.replays == v.replays + |received|
    && (received == [] ==> v' == v)
    && (received != [] ==> v.overrunAt.None? && v'.overrunAt.None? && v'.replays <= TotalReplays(v'.blocks))
    && DownloadedRight(queue, numRx, memSize, v, d.mem, received, captured)
  }

  /** If a cursor that had not moved was followed, every signal received is the expected one. */
  ghost predicate DownloadedRight(queue: seq<RxStreamingConfig>, numRx: nat, memSize: nat, v: TrackerView,
                                  mem: seq<Byte>, received: seq<MimoSignal>, captured: seq<MimoSignal>)
  {
    Stored(Burst(memSize, 0, numRx, [], queue), v, mem, captured) && v.replays == 0 ==>
      BeginsExpected(queue, captured, received)
  }
}
