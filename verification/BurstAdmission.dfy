/** Which accepted configurations the memory takes. Validation does not look at the memory, nor, for
    RX, at the number of streams, so it accepts queues that a burst then refuses. */
module BurstAdmission {
  import opened Outcomes
  import opened Samples
  import opened StreamingConfig
  import opened Schedule
  import opened SampleCounts
  import opened BlockLayout
  import opened BlockOffsetTracking
  import opened ReplayDevice
  import opened ReplayBlockConfiguration
  import opened DuplexGraph
  import opened StreamingThreads
  import opened StreamingProofs
  import opened BurstPipeline

  const WORD_BYTES: nat := SAMPLE_SIZE * WORD_SIZE

  // ---------- RX ----------

  /** What the receive thread demands of entry i of a queue: a stream count, no repetitions on
      several streams, an aligned period, and memory for it after the entries before it. */
  predicate RxAdmits(memSize: nat, streams: nat, queue: seq<RxStreamingConfig>, i: nat)
    requires i < |queue|
  {
    && streams > 0
    && (queue[i].numRepetitions > 1 ==> streams == 1)
    && queue[i].repetitionPeriod % WORD_SIZE == 0
    && SAMPLE_SIZE * SamplesBefore(RxBlocks(queue), streams, i + 1) < RxBufferSize(memSize)
  }

  /** The first n entries are there and admitted. */
  ghost predicate RxAdmitted(b: Burst, n: nat) {
    n <= |b.rxQueue| && forall i | 0 <= i < n :: RxAdmits(b.memSize, b.numRx, b.rxQueue, i)
  }

  /** What the entries before i reserve does not depend on those after. */
  lemma RxReservedBefore(queue: seq<RxStreamingConfig>, streams: nat, i: nat)
    requires i < |queue|
    ensures SamplesBefore(RxBlocks(queue), streams, i + 1)
            == SamplesBefore(RxBlocks(queue[..i]), streams, i) + RxBlock(queue[i]).TotalSamples() * streams
  {
    assert RxBlocks(queue) == RxBlocks(queue[..i]) + RxBlocks(queue[i..]);
    SamplesBeforePrefix(RxBlocks(queue[..i]), RxBlocks(queue[i..]), streams, i);
  }

  /** The tracker takes a valid entry, and the radio has a number of samples to be asked for,
      exactly when the entry is admitted. */
  lemma RxReservedIffAdmitted(b: Burst, v: TrackerView, i: nat)
    requires RxReserved(b, v) && i == |v.blocks| < |b.rxQueue|
    ensures RxAdmits(b.memSize, b.numRx, b.rxQueue, i) <==>
              v.RecordOutcome(RxBlock(b.rxQueue[i])).Pass? && b.rxQueue[i].TotalWordAlignedSamples().Success?
  {
    SampleConservation(b.rxQueue[i]);
    RxReservedBefore(b.rxQueue, b.numRx, i);
  }

  /** The receive thread refuses an entry exactly when it is not admitted or the recording ports
      could not be emptied. */
  lemma RxRefusal(b: Burst, s: StreamState, s': StreamState, r: Outcome)
    requires Inv(b, s) && RxConfigure(b, s, s', r)
    ensures s'.rx.error.Some? <==>
              !RxAdmits(b.memSize, b.numRx, b.rxQueue, s.rx.index) || r == Fail(CannotClearBuffer)
    ensures s'.rx.error.None? ==> s'.rx.active
  {
    RxReservedIffAdmitted(b, s.view.rx, s.rx.index);
  }

  /** Steps that are the hardware's fault. */
  predicate RxFault(step: Step) {
    step.RxFails? || step == RxConfigures(Fail(CannotClearBuffer))
  }

  ghost predicate NextWithoutRxFault(b: Burst, s: StreamState, s': StreamState) {
    exists step :: NextBy(b, s, s', step) && !RxFault(step)
  }

  ghost predicate WithoutRxFault(b: Burst, run: seq<StreamState>) {
    forall t | 0 < t < |run| :: NextWithoutRxFault(b, run[t - 1], run[t])
  }

  /** Whatever begins to be captured is admitted. */
  lemma {:induction false} CapturedIsAdmitted(b: Burst, run: seq<StreamState>, t: nat)
    requires IsRun(b, run) && t < |run|
    ensures RxAdmitted(b, |run[t].rx.captured|)
  {
    if t == 0 {
      NothingIsAdmitted(b, run[0]);
    } else {
      CapturedIsAdmitted(b, run, t - 1);
      RunKeepsInv(b, run, t - 1);
      assert Next(b, run[t - 1], run[t]);
      StepAdmits(b, run[t - 1], run[t]);
    }
  }

  lemma NothingIsAdmitted(b: Burst, s: StreamState)
    requires Init(b, s)
    ensures RxAdmitted(b, |s.rx.captured|)
  {
  }

  lemma StepAdmits(b: Burst, s: StreamState, s': StreamState)
    requires Inv(b, s) && Next(b, s, s') && RxAdmitted(b, |s.rx.captured|)
    ensures RxAdmitted(b, |s'.rx.captured|)
  {
    var step :| NextBy(b, s, s', step);
    var begins := BeginsCapture(b, s, s', step);
    if begins {
      OneMoreAdmitted(b, |s.rx.captured|);
    }
  }

  /** A step begins no capture, or one of an admitted entry. */
  lemma BeginsCapture(b: Burst, s: StreamState, s': StreamState, step: Step) returns (begins: bool)
    requires Inv(b, s) && NextBy(b, s, s', step)
    ensures |s'.rx.captured| == |s.rx.captured| + if begins then 1 else 0
    ensures begins ==> |s.rx.captured| < |b.rxQueue| && RxAdmits(b.memSize, b.numRx, b.rxQueue, |s.rx.captured|)
  {
    begins := false;
    if step.RxConfigures? {
      RxRefusal(b, s, s', step.r);
      begins := s'.rx.error.None?;
    } else {
      OnlyConfigureBegins(b, s, s', step);
    }
  }

  lemma OnlyConfigureBegins(b: Burst, s: StreamState, s': StreamState, step: Step)
    requires NextBy(b, s, s', step) && !step.RxConfigures?
    ensures |s'.rx.captured| == |s.rx.captured|
  {
  }

  lemma OneMoreAdmitted(b: Burst, n: nat)
    requires n < |b.rxQueue| && RxAdmitted(b, n) && RxAdmits(b.memSize, b.numRx, b.rxQueue, n)
    ensures RxAdmitted(b, n + 1)
  {
  }

  /** A receive thread that has stopped without a fault of the hardware has come to an entry that is
      not admitted. */
  lemma {:induction false} StopsAtRefused(b: Burst, run: seq<StreamState>, t: nat)
    requires IsRun(b, run) && WithoutRxFault(b, run) && t < |run|
    ensures StoppedAtRefused(b, run[t].rx)
  {
    if t > 0 {
      StopsAtRefused(b, run, t - 1);
      RunKeepsInv(b, run, t - 1);
      assert NextWithoutRxFault(b, run[t - 1], run[t]);
      StepStopsAtRefused(b, run[t - 1], run[t]);
    }
  }

  ghost predicate StoppedAtRefused(b: Burst, rx: RxThread) {
    rx.error.Some? ==>
      rx.index == |rx.captured| < |b.rxQueue| && !RxAdmits(b.memSize, b.numRx, b.rxQueue, rx.index)
  }

  lemma StepStopsAtRefused(b: Burst, s: StreamState, s': StreamState)
    requires Inv(b, s) && NextWithoutRxFault(b, s, s') && StoppedAtRefused(b, s.rx)
    ensures StoppedAtRefused(b, s'.rx)
  {
    var step :| NextBy(b, s, s', step) && !RxFault(step);
    RefusedStops(b, s, s', step);
  }

  lemma RefusedStops(b: Burst, s: StreamState, s': StreamState, step: Step)
    requires Inv(b, s) && NextBy(b, s, s', step) && !RxFault(step) && StoppedAtRefused(b, s.rx)
    ensures StoppedAtRefused(b, s'.rx)
  {
    if step.RxConfigures? {
      RxRefusal(b, s, s', step.r);
    }
  }

  /** In every run without a fault of the hardware, the receive thread ends without an error if and
      only if every entry of its queue is admitted; otherwise it stops at the first that is not. */
  lemma StreamsIffAdmitted(b: Burst, run: seq<StreamState>)
    requires IsRun(b, run) && WithoutRxFault(b, run) && RxDone(b, run[|run| - 1].rx)
    ensures run[|run| - 1].rx.error.None? <==> RxAdmitted(b, |b.rxQueue|)
    ensures var rx := run[|run| - 1].rx;
            rx.error.Some? ==>
              && RxAdmitted(b, rx.index) && rx.index < |b.rxQueue|
              && !RxAdmits(b.memSize, b.numRx, b.rxQueue, rx.index)
  {
    RunKeepsInv(b, run, |run| - 1);
    CapturedIsAdmitted(b, run, |run| - 1);
    StopsAtRefused(b, run, |run| - 1);
  }

  /** A receive thread that has ended without an error has captured admitted entries only. */
  lemma StreamedIsAdmitted(b: Burst, run: seq<StreamState>)
    requires IsRun(b, run) && RxDone(b, run[|run| - 1].rx)
    ensures run[|run| - 1].rx.error.None? ==> RxAdmitted(b, |b.rxQueue|)
  {
    RunKeepsInv(b, run, |run| - 1);
    CapturedIsAdmitted(b, run, |run| - 1);
  }

  // ---------- Runs without faults exist ----------

  /** The device after all ports have been told to record the newest block, and nothing strayed in. */
  ghost function CleanlyArmed(d: Device, base: nat, v: TrackerView): (d': Device)
    requires v.blocks != [] && v.streams <= |d.rec|
    ensures Recording(d, d', v, base, Pass)
  {
    var k := |v.blocks| - 1;
    d.(rec := seq(|d.rec|, p requires 0 <= p =>
         RecordPort(base + SAMPLE_SIZE * RegionStart(v.blocks, v.streams, k, p),
                    SAMPLE_SIZE * v.blocks[k].TotalSamples(), 0)))
  }

  /** A receive thread that is not done can take a step that is no fault, towards its end. */
  lemma RxNeverStuck(b: Burst, s: StreamState) returns (s': StreamState, step: Step)
    requires Inv(b, s) && !RxDone(b, s.rx)
    ensures NextBy(b, s, s', step) && !RxFault(step) && RxAdvances(b, s.rx, s'.rx) && s'.tx == s.tx
  {
    if !s.rx.active {
      s', step := RxCanConfigure(b, s);
    } else {
      s', step := RxCanProgress(b, s);
    }
  }

  lemma RxCanConfigure(b: Burst, s: StreamState) returns (s': StreamState, step: Step)
    requires Inv(b, s) && !RxDone(b, s.rx) && !s.rx.active
    ensures NextBy(b, s, s', step) && !RxFault(step) && RxAdvances(b, s.rx, s'.rx) && s'.tx == s.tx
  {
    var outcome := s.view.rx.RecordOutcome(RxBlock(b.rxQueue[s.rx.index]));
    step := RxConfigures(outcome);
    if outcome.Fail? {
      s' := s.(rx := s.rx.(error := Some(outcome.error)));
    } else {
      s' := RxCanReserve(b, s);
    }
  }

  lemma RxCanReserve(b: Burst, s: StreamState) returns (s': StreamState)
    requires s.rx.error.None? && !s.rx.active && s.rx.index < |b.rxQueue| && s.view.rx.streams <= |s.view.device.rec|
    requires s.view.rx.RecordOutcome(RxBlock(b.rxQueue[s.rx.index])).Pass?
    ensures RxConfigure(b, s, s', Pass) && RxAdvances(b, s.rx, s'.rx) && s'.tx == s.tx
  {
    var conf := b.rxQueue[s.rx.index];
    var v' := s.view.rx.AfterRecord(RxBlock(conf));
    var d' := CleanlyArmed(s.view.device, RxBufferOffset(b.memSize), v');
    var rx' := if conf.TotalWordAlignedSamples().Failure? then s.rx.(error := Some(UnalignedPeriod))
               else s.rx.(active := true, captured := s.rx.captured + [EmptyChannels(b.numRx)]);
    s' := s.(view := s.view.(rx := v', device := d'), rx := rx');
  }

  lemma RxCanProgress(b: Burst, s: StreamState) returns (s': StreamState, step: Step)
    requires Inv(b, s) && !RxDone(b, s.rx) && s.rx.active
    ensures NextBy(b, s, s', step) && !RxFault(step) && RxAdvances(b, s.rx, s'.rx) && s'.tx == s.tx
  {
    var i, total := s.rx.index, b.rxQueue[s.rx.index].TotalWordAlignedSamples().value;
    if p: nat :| p < |s.rx.captured[i]| && |s.rx.captured[i][p]| < total {
      s', step := RxAfterDeliver(s, p, ZERO), RxDelivers(p, ZERO);
      DeliverAdvances(b, s, p);
    } else {
      RxMayFinish(b, s);
      s', step := s.(rx := s.rx.(active := false, index := s.rx.index + 1)), RxFinishes;
    }
  }

  lemma DeliverAdvances(b: Burst, s: StreamState, p: nat)
    requires RxMayDeliver(b, s, p) && b.rxQueue[s.rx.index].TotalWordAlignedSamples().Success?
    requires |s.rx.captured[s.rx.index][p]| < b.rxQueue[s.rx.index].TotalWordAlignedSamples().value
    ensures RxAdvances(b, s.rx, RxAfterDeliver(s, p, ZERO).rx)
  {
    RemainingDrops(s.rx.captured[s.rx.index], b.rxQueue[s.rx.index].TotalWordAlignedSamples().value, p, ZERO);
  }

  ghost predicate EndsReceiving(b: Burst, run: seq<StreamState>) {
    run != [] && RxDone(b, run[|run| - 1].rx)
  }

  /** Every run without a fault can go on, without a fault, until the receive thread is done. */
  lemma {:induction false} RunsToEnd(b: Burst, run: seq<StreamState>, rx: RxThread) returns (run': seq<StreamState>)
    requires IsRun(b, run) && WithoutRxFault(b, run) && run[|run| - 1].rx == rx
    ensures run <= run' && IsRun(b, run') && WithoutRxFault(b, run') && EndsReceiving(b, run')
    decreases if rx.error.None? then 1 else 0, |b.rxQueue| - rx.index, if rx.active then 0 else 1, RxSamplesLeft(b, rx)
  {
    if EndsReceiving(b, run) {
      run' := run;
    } else {
      var longer, rx' := RunGoesOn(b, run, rx);
      run' := RunsToEnd(b, longer, rx');
      PrefixOfPrefix(run, longer, run');
    }
  }

  lemma PrefixOfPrefix(run: seq<StreamState>, run': seq<StreamState>, run'': seq<StreamState>)
    requires run <= run' <= run''
    ensures run <= run''
  {
  }

  lemma RunGoesOn(b: Burst, run: seq<StreamState>, rx: RxThread) returns (run': seq<StreamState>, rx': RxThread)
    requires IsRun(b, run) && WithoutRxFault(b, run) && run[|run| - 1].rx == rx && !RxDone(b, rx)
    ensures run <= run' && IsRun(b, run') && WithoutRxFault(b, run') && run'[|run'| - 1].rx == rx'
    ensures RxAdvances(b, rx, rx') && rx'.index <= |b.rxQueue|
  {
    RunKeepsInv(b, run, |run| - 1);
    var s', step := RxNeverStuck(b, run[|run| - 1]);
    RunExtends(b, run, s', step);
    RunExtendsWithoutFault(b, run, s', step);
    run', rx' := run + [s'], s'.rx;
    RunKeepsInv(b, run', |run'| - 1);
  }

  lemma RunExtendsWithoutFault(b: Burst, run: seq<StreamState>, s: StreamState, step: Step)
    requires run != [] && WithoutRxFault(b, run) && NextBy(b, run[|run| - 1], s, step) && !RxFault(step)
    ensures WithoutRxFault(b, run + [s])
  {
    var run' := run + [s];
    assert NextWithoutRxFault(b, run[|run| - 1], s);
    forall t | 0 < t < |run'| ensures NextWithoutRxFault(b, run'[t - 1], run'[t]) {
      if t < |run| {
        assert run'[t] == run[t];
      }
    }
  }

  /** From the end of an upload there is a run that captures the whole queue if and only if every
      entry is admitted. */
  lemma CanStreamIffAdmitted(b: Burst, s: StreamState)
    requires Init(b, s)
    ensures RxAdmitted(b, |b.rxQueue|) <==>
            exists run :: IsRun(b, run) && run[0] == s && RxCompleted(b, run[|run| - 1])
  {
    if RxAdmitted(b, |b.rxQueue|) {
      var run := RunsToEnd(b, [s], s.rx);
      StreamsIffAdmitted(b, run);
      RunKeepsInv(b, run, |run| - 1);
      assert run[0] == s && RxCompleted(b, run[|run| - 1]);
    }
    forall run | IsRun(b, run) && run[0] == s && RxCompleted(b, run[|run| - 1]) ensures RxAdmitted(b, |b.rxQueue|) {
      RunKeepsInv(b, run, |run| - 1);
      CapturedIsAdmitted(b, run, |run| - 1);
    }
  }

  // ---------- Accepted and yet refused ----------

  /** One repetition with an unaligned period is accepted, and refused on every device. */
  lemma UnalignedPeriodIsRefused(guard: real, fs: real, memSize: nat, streams: nat)
    requires fs > 0.0
    ensures var conf := RxStreamingConfig(8, 0.0, 1, 9);
            AcceptRx([], conf, guard, fs) == Success([conf]) && !RxAdmits(memSize, streams, [conf], 0)
  {
    var conf := RxStreamingConfig(8, 0.0, 1, 9);
    assert [] + [conf] == [conf];
  }

  /** Repetitions are accepted whatever the number of streams, and refused on more than one. */
  lemma RepetitionsOnStreamsAreRefused(guard: real, fs: real, memSize: nat, streams: nat)
    requires fs > 0.0 && memSize >= 88
    ensures var conf := RxStreamingConfig(8, 0.0, 2, 0);
            && AcceptRx([], conf, guard, fs) == Success([conf])
            && (RxAdmits(memSize, streams, [conf], 0) <==> streams == 1)
  {
    var conf := RxStreamingConfig(8, 0.0, 2, 0);
    assert [] + [conf] == [conf];
    var blocks := RxBlocks([conf]);
    assert blocks[0].TotalSamples() == 16;
    assert SamplesBefore(blocks, streams, 1) == SamplesBefore(blocks, streams, 0) + 16 * streams;
  }

  /** The shortest capture of whole words that does not fit the RX buffer. */
  function TooLong(memSize: nat): RxStreamingConfig {
    RxStreamingConfig(WORD_SIZE * (RxBufferSize(memSize) / WORD_BYTES + 1), 0.0, 1, 0)
  }

  /** Captures of any length are accepted, and refused when the memory is too small for them. Of the
      memories there are, none is large enough for all lengths that 32 bits can ask for. */
  lemma TooLongIsRefused(guard: real, fs: real, memSize: nat, streams: nat)
    requires fs > 0.0 && memSize <= TWO34
    ensures Fields32(TooLong(memSize))
    ensures AcceptRx([], TooLong(memSize), guard, fs) == Success([TooLong(memSize)])
    ensures !RxAdmits(memSize, streams, [TooLong(memSize)], 0)
  {
    var conf := TooLong(memSize);
    assert [] + [conf] == [conf];
    if streams > 0 {
      var blocks := RxBlocks([conf]);
      var total := blocks[0].TotalSamples();
      assert SAMPLE_SIZE * total >= RxBufferSize(memSize);
      assert SamplesBefore(blocks, streams, 1) == SamplesBefore(blocks, streams, 0) + total * streams;
      MulMonotone(total, 1, streams);
    }
  }

  // ---------- Machine widths ----------

  /** RxAdmits as the original computes it: with the allocator's 64-bit test for free memory. */
  predicate MachineAdmits(memSize: nat, streams: nat, queue: seq<RxStreamingConfig>, i: nat)
    requires i < |queue|
  {
    && streams > 0
    && (queue[i].numRepetitions > 1 ==> streams == 1)
    && queue[i].repetitionPeriod % WORD_SIZE == 0
    && MachineGrants(SamplesBefore(RxBlocks(queue), streams, i), RxBlock(queue[i]).TotalSamples(), streams,
                     RxBufferSize(memSize))
  }

  /** An entry the original can be given: 32-bit fields, and a total that 64 bits count in bytes. */
  predicate InBounds(conf: RxStreamingConfig) {
    ValidRx(conf) && Fields32(conf) && conf.Period() * conf.numRepetitions < TWO60
  }

  /** As long as the entries before it fit, the original admits an entry within the bounds exactly
      when it should. Beyond them it may admit more: see SampleCounts.WrappedGrant. */
  lemma AdmitsAsMachine(memSize: nat, streams: nat, queue: seq<RxStreamingConfig>, i: nat)
    requires memSize <= TWO34 && streams <= 4 && i < |queue| && InBounds(queue[i])
    requires SAMPLE_SIZE * SamplesBefore(RxBlocks(queue), streams, i) < RxBufferSize(memSize)
    ensures RxAdmits(memSize, streams, queue, i) <==> MachineAdmits(memSize, streams, queue, i)
  {
    PeriodBound(queue[i]);
    if streams > 0 && (queue[i].numRepetitions > 1 ==> streams == 1) {
      GrantIsExact(SamplesBefore(RxBlocks(queue), streams, i), RxBlock(queue[i]).TotalSamples(), streams,
                   RxBufferSize(memSize));
      assert RxBlocks(queue)[i] == RxBlock(queue[i]);
    }
  }

  /** Of a queue within the bounds the original admits all entries exactly when it should. */
  lemma {:induction false} QueueAdmittedAsMachine(memSize: nat, streams: nat, queue: seq<RxStreamingConfig>, n: nat)
    requires memSize <= TWO34 && streams <= 4 && n <= |queue|
    requires forall i | 0 <= i < |queue| :: InBounds(queue[i])
    ensures (forall i | 0 <= i < n :: RxAdmits(memSize, streams, queue, i)) <==>
            forall i | 0 <= i < n :: MachineAdmits(memSize, streams, queue, i)
  {
    if n > 0 && RxBufferSize(memSize) == 0 {
      assert !RxAdmits(memSize, streams, queue, 0) && !MachineAdmits(memSize, streams, queue, 0);
    } else if n > 0 {
      QueueAdmittedAsMachine(memSize, streams, queue, n - 1);
      if forall i | 0 <= i < n - 1 :: RxAdmits(memSize, streams, queue, i) {
        assert n > 1 ==> RxAdmits(memSize, streams, queue, n - 2);
        AdmitsAsMachine(memSize, streams, queue, n - 1);
      }
    }
  }

  // ---------- TX ----------

  /** What the upload demands of entry k of a queue: as many channels as there are streams now,
      which need not be as many as when it was validated, and memory after the entries before it. */
  predicate TxAdmits(memSize: nat, streams: nat, queue: seq<TxStreamingConfig>, k: nat)
    requires k < |queue|
  {
    && |queue[k].samples| == streams > 0
    && SAMPLE_SIZE * SamplesBefore(TxBlocks(queue), streams, k + 1) < TxBufferSize(memSize)
  }

  ghost predicate TxAdmitted(memSize: nat, streams: nat, queue: seq<TxStreamingConfig>) {
    forall k | 0 <= k < |queue| :: TxAdmits(memSize, streams, queue, k)
  }

  /** Failures of an upload that are the hardware's fault. */
  predicate UploadFault(e: UsrpError) {
    DeviceFault(e) || e == CannotClearBuffer
  }

  /** Eight zeros on one stream are accepted, and refused where the memory is too small, or once the
      stream count has been set to two. */
  lemma AcceptedUploadIsRefused(guard: real, fs: real, memSize: nat)
    requires fs > 0.0
    ensures var conf := TxStreamingConfig([Zeros(WORD_SIZE)], 0.0, 1);
            && AcceptTx([], conf, 1, guard, fs) == Success([conf])
            && (TxAdmits(memSize, 1, [conf], 0) <==> memSize >= 132)
            && !TxAdmits(memSize, 2, [conf], 0)
  {
    var conf := TxStreamingConfig([Zeros(WORD_SIZE)], 0.0, 1);
    assert AssertValidTxSignal(conf.samples, MAX_SAMPLES_TX_SIGNAL, 1).Pass?;
    assert AssertValidTxStreamingConfig(None, conf, guard, fs).Pass?;
    assert PaddedConfig(conf).samples[0] == conf.samples[0];
    assert PaddedConfig(conf).samples == conf.samples;
    assert [] + [conf] == [conf];
    var blocks := TxBlocks([conf]);
    assert blocks[0].TotalSamples() == 8;
    assert SamplesBefore(blocks, 1, 1) == SamplesBefore(blocks, 1, 0) + 8 * 1;
  }

  /** What a burst that streams has reserved was admitted. */
  lemma ReservedIsAdmitted(b: Burst, v: TrackerView)
    requires TxReserved(b, v)
    ensures TxAdmitted(b.memSize, b.numTx, b.txQueue)
  {
    forall k | 0 <= k < |b.txQueue| ensures TxAdmits(b.memSize, b.numTx, b.txQueue, k) {
      assert ValidTx(b.txQueue[k], b.numTx);
      SamplesBeforeMonotone(v.blocks, b.numTx, k + 1, |b.txQueue|);
    }
  }

  /** The device takes and acknowledges every signal, and nothing keeps straying in. */
  ghost predicate UploadsHealthy(queue: seq<TxStreamingConfig>, answers: nat -> SignalAnswer, streams: nat) {
    UploadsClean(queue, answers, |queue|) && forall k | 0 <= k < |queue| :: !Noisy(answers(k).strays, streams)
  }

  /** An upload refused, and not because of the hardware, was not admitted. */
  lemma RefusedIsNotAdmitted(memSize: nat, v: TrackerView, queue: seq<TxStreamingConfig>,
                             answers: nat -> SignalAnswer, e: UsrpError)
    requires UploadRefused(queue, answers, v, e) && v.memSize == TxBufferSize(memSize)
    requires !UploadFault(e) || UploadsHealthy(queue, answers, v.streams)
    ensures !TxAdmitted(memSize, v.streams, queue)
  {
    var n := |v.blocks|;
    if n < |queue| && v.RecordOutcome(TxBlock(queue[n])) == Fail(e) {
      assert TxBlocks(queue) == v.blocks + TxBlocks(queue[n..]);
      SamplesBeforePrefix(v.blocks, TxBlocks(queue[n..]), v.streams, n);
      assert !TxAdmits(memSize, v.streams, queue, n);
    } else {
      assert !TxAdmits(memSize, v.streams, queue, n - 1);
    }
  }

  ghost predicate NextWithoutTxFault(b: Burst, s: StreamState, s': StreamState) {
    exists step :: NextBy(b, s, s', step) && !step.TxFails?
  }

  ghost predicate WithoutTxFault(b: Burst, run: seq<StreamState>) {
    forall t | 0 < t < |run| :: NextWithoutTxFault(b, run[t - 1], run[t])
  }

  /** After an upload the transmit thread refuses nothing: it fails only by a fault of the radio. */
  lemma {:induction false} TxNeverRefused(b: Burst, run: seq<StreamState>, t: nat)
    requires IsRun(b, run) && WithoutTxFault(b, run) && t < |run|
    ensures run[t].tx.error.None?
  {
    if t > 0 {
      TxNeverRefused(b, run, t - 1);
      RunKeepsInv(b, run, t - 1);
      assert NextWithoutTxFault(b, run[t - 1], run[t]);
      NextRefusesNothing(b, run[t - 1], run[t]);
    }
  }

  lemma NextRefusesNothing(b: Burst, s: StreamState, s': StreamState)
    requires Inv(b, s) && NextWithoutTxFault(b, s, s') && s.tx.error.None?
    ensures s'.tx.error.None?
  {
    var step :| NextBy(b, s, s', step) && !step.TxFails?;
    TxStepRefusesNothing(b, s, s', step);
  }

  lemma TxStepRefusesNothing(b: Burst, s: StreamState, s': StreamState, step: Step)
    requires Inv(b, s) && NextBy(b, s, s', step) && !step.TxFails? && s.tx.error.None?
    ensures s'.tx.error.None?
  {
    if step.TxConfigures? {
      TxConfigureKeepsInv(b, s, s');
    }
  }

  // ---------- What the radio has answered ----------

  /** The transmit thread stands as the radio's answers have it. */
  ghost predicate TxAsTold(radio: Radio, b: Burst, tx: TxThread) {
    && (forall k | 0 <= k < tx.index :: radio.txFault(k) == None)
    && (tx.error.Some? ==> tx.index < |b.txQueue| && radio.txFault(tx.index) == tx.error)
  }

  /** So does the receive thread, unless it was refused an entry. */
  ghost predicate RxAsTold(radio: Radio, b: Burst, rx: RxThread) {
    && (forall i | 0 <= i < rx.index :: radio.rxFault(i) == None)
    && (rx.error.Some? ==> rx.index < |b.rxQueue| && RxStopped(radio, b, rx.index, rx.error.value))
  }

  /** Why the receive thread may stop at entry i. */
  ghost predicate RxStopped(radio: Radio, b: Burst, i: nat, e: UsrpError)
    requires i < |b.rxQueue|
  {
    || radio.rxFault(i) == Some(e)
    || !RxAdmits(b.memSize, b.numRx, b.rxQueue, i)
    || (e == CannotClearBuffer && Noisy(radio.strays(i), b.numRx))
  }

  /** What has been captured is what was in the air. */
  ghost predicate FromAir(radio: Radio, captured: seq<MimoSignal>) {
    forall i, p | 0 <= i < |captured| && 0 <= p < |captured[i]| :: ChannelFromAir(radio, i, p, captured[i][p])
  }

  ghost predicate ChannelFromAir(radio: Radio, i: nat, p: nat, xs: seq<Sample>) {
    forall j | 0 <= j < |xs| :: xs[j] == radio.air(i, p, j)
  }

  /** What a step does to the progress of the transmit thread. */
  ghost predicate TxMoves(b: Burst, tx: TxThread, tx': TxThread, step: Step) {
    match step
    case TxFinishes => tx'.index == tx.index + 1 && tx'.error == None
    case TxFails(e) => tx'.index == tx.index < |b.txQueue| && tx'.error == Some(e)
    case _ => tx'.index == tx.index && tx'.error == tx.error
  }

  lemma TxStepMoves(b: Burst, s: StreamState, s': StreamState, step: Step)
    requires Inv(b, s) && NextBy(b, s, s', step)
    ensures TxMoves(b, s.tx, s'.tx, step)
  {
    match step
    case TxConfigures => TxConfigureKeepsInv(b, s, s');
    case TxFails(e) => ActiveIsQueued(b, s);
    case _ =>
  }

  lemma ActiveIsQueued(b: Burst, s: StreamState)
    requires Inv(b, s)
    ensures s.tx.active ==> s.tx.index < |b.txQueue|
    ensures s.rx.active && s.rx.error.None? ==> s.rx.index < |b.rxQueue|
  {
  }

  lemma TxStepAsTold(radio: Radio, b: Burst, s: StreamState, s': StreamState, step: Step)
    requires TxMoves(b, s.tx, s'.tx, step) && Allows(radio, b, s, step) && TxAsTold(radio, b, s.tx)
    ensures TxAsTold(radio, b, s'.tx)
  {
  }

  /** What a step does to the progress of the receive thread. */
  ghost predicate RxMoves(b: Burst, rx: RxThread, rx': RxThread, step: Step) {
    match step
    case RxFinishes => rx'.index == rx.index + 1 && rx'.error == None
    case RxFails(e) => rx'.index == rx.index < |b.rxQueue| && rx'.error == Some(e)
    case RxConfigures(r) =>
      && rx'.index == rx.index < |b.rxQueue|
      && (rx'.error.Some? ==>
            || !RxAdmits(b.memSize, b.numRx, b.rxQueue, rx.index)
            || (r == Fail(CannotClearBuffer) && rx'.error.value == CannotClearBuffer))
    case _ => rx'.index == rx.index && rx'.error == rx.error
  }

  lemma RxStepMoves(b: Burst, s: StreamState, s': StreamState, step: Step)
    requires Inv(b, s) && NextBy(b, s, s', step)
    ensures RxMoves(b, s.rx, s'.rx, step)
  {
    match step
    case RxConfigures(r) => RxRefusal(b, s, s', r);
    case RxFails(e) => ActiveIsQueued(b, s);
    case _ =>
  }

  lemma RxStepAsTold(radio: Radio, b: Burst, s: StreamState, s': StreamState, step: Step)
    requires RxMoves(b, s.rx, s'.rx, step) && Allows(radio, b, s, step) && RxAsTold(radio, b, s.rx)
    ensures RxAsTold(radio, b, s'.rx)
  {
  }

  lemma StepFromAir(radio: Radio, b: Burst, s: StreamState, s': StreamState, step: Step)
    requires NextBy(b, s, s', step) && Allows(radio, b, s, step) && FromAir(radio, s.rx.captured)
    ensures FromAir(radio, s'.rx.captured)
  {
    if step.RxDelivers? {
      DeliveredFromAir(radio, s.rx.captured, s.rx.index, step.p, step.x);
    }
  }

  lemma DeliveredFromAir(radio: Radio, captured: seq<MimoSignal>, i: nat, p: nat, x: Sample)
    requires FromAir(radio, captured) && i < |captured| && p < |captured[i]|
    requires x == radio.air(i, p, |captured[i][p]|)
    ensures FromAir(radio, captured[i := captured[i][p := captured[i][p] + [x]]])
  {
    var captured' := captured[i := captured[i][p := captured[i][p] + [x]]];
    forall i', p' | 0 <= i' < |captured'| && 0 <= p' < |captured'[i']|
      ensures ChannelFromAir(radio, i', p', captured'[i'][p'])
    {
      assert ChannelFromAir(radio, i', p', captured[i'][p']);
    }
  }

  ghost predicate AsTold(radio: Radio, b: Burst, s: StreamState) {
    TxAsTold(radio, b, s.tx) && RxAsTold(radio, b, s.rx) && FromAir(radio, s.rx.captured)
  }

  lemma NextAsTold(radio: Radio, b: Burst, s: StreamState, s': StreamState)
    requires Inv(b, s) && NextAllowed(radio, b, s, s') && AsTold(radio, b, s)
    ensures AsTold(radio, b, s')
  {
    var step :| NextBy(b, s, s', step) && Allows(radio, b, s, step);
    TxStepMoves(b, s, s', step);
    RxStepMoves(b, s, s', step);
    TxStepAsTold(radio, b, s, s', step);
    RxStepAsTold(radio, b, s, s', step);
    StepFromAir(radio, b, s, s', step);
  }

  lemma InitAsTold(radio: Radio, b: Burst, s: StreamState)
    requires Init(b, s)
    ensures AsTold(radio, b, s)
  {
  }

  /** At every moment of every run the threads stand as the radio's answers have it. */
  lemma {:induction false} RunAsTold(radio: Radio, b: Burst, run: seq<StreamState>, t: nat)
    requires IsRun(b, run) && IsAllowed(radio, b, run) && t < |run|
    ensures AsTold(radio, b, run[t])
  {
    if t == 0 {
      InitAsTold(radio, b, run[0]);
    } else {
      RunAsTold(radio, b, run, t - 1);
      RunKeepsInv(b, run, t - 1);
      assert NextAllowed(radio, b, run[t - 1], run[t]);
      NextAsTold(radio, b, run[t - 1], run[t]);
    }
  }

  ghost predicate NoTxFault(radio: Radio, b: Burst) {
    forall k | 0 <= k < |b.txQueue| :: radio.txFault(k) == None
  }

  ghost predicate NoRxFault(radio: Radio, b: Burst) {
    forall i | 0 <= i < |b.rxQueue| :: radio.rxFault(i) == None
  }

  ghost predicate NothingStrays(radio: Radio, b: Burst) {
    forall i | 0 <= i < |b.rxQueue| :: !Noisy(radio.strays(i), b.numRx)
  }

  /** How the threads end is up to the radio's answers and the queues: the transmit thread ends
      without an error if and only if the radio reports none, the receive thread if and only if the
      radio reports none and every entry is admitted, unless samples keep straying in. */
  lemma EndsAsTold(radio: Radio, b: Burst, run: seq<StreamState>)
    requires IsRun(b, run) && IsAllowed(radio, b, run)
    requires TxDone(b, run[|run| - 1].tx) && RxDone(b, run[|run| - 1].rx)
    ensures run[|run| - 1].tx.error.None? <==> NoTxFault(radio, b)
    ensures run[|run| - 1].rx.error.None? ==> NoRxFault(radio, b) && RxAdmitted(b, |b.rxQueue|)
    ensures NothingStrays(radio, b) && NoRxFault(radio, b) && RxAdmitted(b, |b.rxQueue|) ==>
              run[|run| - 1].rx.error.None?
    ensures FromAir(radio, run[|run| - 1].rx.captured)
  {
    RunAsTold(radio, b, run, |run| - 1);
    StreamedIsAdmitted(b, run);
  }

  // ---------- Word alignment of the commands ----------

  lemma ProductAligned(t: nat, n: nat)
    requires t % WORD_SIZE == 0
    ensures (t * n) % WORD_SIZE == 0
  {
    var q := t / WORD_SIZE;
    assert t == WORD_SIZE * q;
    assert t * n == WORD_SIZE * (q * n);
  }

  /** After blocks of whole words, the regions of a block start at whole words. */
  lemma {:induction false} RegionsAligned(blocks: seq<ReplayBlock>, streams: nat, k: nat)
    requires k <= |blocks| && forall j | 0 <= j < k :: blocks[j].TotalSamples() % WORD_SIZE == 0
    ensures SamplesBefore(blocks, streams, k) % WORD_SIZE == 0
  {
    if k > 0 {
      RegionsAligned(blocks, streams, k - 1);
      ProductAligned(blocks[k - 1].TotalSamples(), streams);
    }
  }

  lemma RegionAligned(blocks: seq<ReplayBlock>, streams: nat, k: nat, p: nat)
    requires k < |blocks| && forall j | 0 <= j <= k :: blocks[j].TotalSamples() % WORD_SIZE == 0
    ensures RegionStart(blocks, streams, k, p) % WORD_SIZE == 0
  {
    RegionsAligned(blocks, streams, k);
    ProductAligned(blocks[k].TotalSamples(), p);
  }

  lemma BytesAligned(samples: nat)
    ensures (SAMPLE_SIZE * samples) % WORD_BYTES == 0 <==> samples % WORD_SIZE == 0
  {
  }

  ghost predicate WholeWords(offset: int, size: nat) {
    offset % WORD_BYTES == 0 && size % WORD_BYTES == 0
  }

  /** The region of an uploaded channel starts and ends at whole words. */
  lemma TxRegionAligned(b: Burst, v: TrackerView, k: nat, p: nat)
    requires TxReserved(b, v) && k < |b.txQueue| && p < b.numTx
    ensures p < |b.txQueue[k].samples|
    ensures WholeWords(TxAddress(b, v.blocks, k, p), SAMPLE_SIZE * |b.txQueue[k].samples[p]|)
  {
    forall j | 0 <= j <= k ensures v.blocks[j].TotalSamples() % WORD_SIZE == 0 {
      assert ValidTx(b.txQueue[j], b.numTx) && v.blocks[j] == TxBlock(b.txQueue[j]);
    }
    RegionAligned(v.blocks, b.numTx, k, p);
    BytesAligned(RegionStart(v.blocks, b.numTx, k, p));
    BytesAligned(|b.txQueue[k].samples[p]|);
  }

  /** A capture takes whole words exactly when its period is aligned. */
  lemma CaptureAligned(conf: RxStreamingConfig)
    requires ValidRx(conf)
    ensures RxBlock(conf).TotalSamples() % WORD_SIZE == 0 <==> conf.repetitionPeriod % WORD_SIZE == 0
  {
    if conf.Period() % WORD_SIZE == 0 {
      ProductAligned(conf.Period(), conf.numRepetitions);
    }
  }

  /** Relative to the RX buffer, the region of a capture starts and ends at whole words, when the
      periods up to it are aligned. */
  lemma RxRegionAligned(b: Burst, v: TrackerView, i: nat, p: nat)
    requires RxReserved(b, v) && i < |v.blocks| && p < b.numRx
    requires forall j | 0 <= j <= i :: b.rxQueue[j].repetitionPeriod % WORD_SIZE == 0
    ensures WholeWords(RxAddress(b, v.blocks, i, p) - RxBufferOffset(b.memSize),
                       SAMPLE_SIZE * v.blocks[i].TotalSamples())
  {
    forall j | 0 <= j <= i ensures v.blocks[j].TotalSamples() % WORD_SIZE == 0 {
      assert v.blocks[j] == RxBlock(b.rxQueue[j]);
      CaptureAligned(b.rxQueue[j]);
    }
    RegionAligned(v.blocks, b.numRx, i, p);
    BytesAligned(RegionStart(v.blocks, b.numRx, i, p));
    BytesAligned(v.blocks[i].TotalSamples());
  }

  /** So does each of its repetitions, which is what a download plays. */
  lemma RepetitionAligned(b: Burst, v: TrackerView, i: nat, r: nat, p: nat)
    requires RxReserved(b, v) && i < |v.blocks| && p < b.numRx
    requires forall j | 0 <= j <= i :: b.rxQueue[j].repetitionPeriod % WORD_SIZE == 0
    ensures WholeWords(RepetitionAddress(b, v.blocks, i, r, p) - RxBufferOffset(b.memSize),
                       SAMPLE_SIZE * b.rxQueue[i].WordAlignedNoSamples())
  {
    RxRegionAligned(b, v, i, p);
    ProductAligned(b.rxQueue[i].Period(), r);
    WordsLater(RxAddress(b, v.blocks, i, p) - RxBufferOffset(b.memSize), RepetitionStart(b.rxQueue[i], r));
    BytesAligned(b.rxQueue[i].WordAlignedNoSamples());
  }

  lemma WordsLater(offset: int, samples: nat)
    requires offset % WORD_BYTES == 0 && samples % WORD_SIZE == 0
    ensures (offset + SAMPLE_SIZE * samples) % WORD_BYTES == 0
  {
  }

  /** In every run, what a thread plays or captures starts and ends at whole words of its buffer. */
  lemma WindowsAligned(b: Burst, run: seq<StreamState>, t: nat, p: nat)
    requires IsRun(b, run) && t < |run|
    ensures var s := run[t];
            && (s.tx.active && p < b.numTx ==>
                  p < |s.view.device.play| && WholeWords(s.view.device.play[p].offset, s.view.device.play[p].size))
            && (s.rx.active && s.rx.error.None? && p < b.numRx ==>
                  && p < |s.view.device.rec|
                  && WholeWords(s.view.device.rec[p].offset - RxBufferOffset(b.memSize), s.view.device.rec[p].size))
  {
    RunKeepsInv(b, run, t);
    CapturedIsAdmitted(b, run, t);
    var s := run[t];
    if s.tx.active && p < b.numTx {
      TxRegionAligned(b, s.view.tx, s.tx.index, p);
    }
    if s.rx.active && s.rx.error.None? && p < b.numRx {
      forall j | 0 <= j <= s.rx.index ensures b.rxQueue[j].repetitionPeriod % WORD_SIZE == 0 {
        assert RxAdmits(b.memSize, b.numRx, b.rxQueue, j);
      }
      RxRegionAligned(b, s.view.rx, s.rx.index, p);
    }
  }
}
