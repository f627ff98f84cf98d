/** The queues of streaming configurations that validation accepts, and the real-time schedule
    they stand for. Validation compares an entry with its predecessor only; the lemmas speak
    about every pair of entries. */
module Schedule {
  import opened Outcomes
  import opened StreamingConfig

  /** The entry a TX configuration leaves in the queue: padded to the word size. */
  function PaddedConfig(conf: TxStreamingConfig): (r: TxStreamingConfig)
    requires |conf.samples| > 0
    ensures PaddedFrom(r, conf)
  {
    var length := NextMultipleOfWordSize(|conf.samples[0]|);
    conf.(samples := seq(|conf.samples|, c requires 0 <= c < |conf.samples| => Resized(conf.samples[c], length)))
  }

  // ---------- TX ----------

  /** Each entry is valid and starts no earlier than the guard after the padded, repeated
      transmission of its predecessor. */
  ghost predicate TxQueue(queue: seq<TxStreamingConfig>, streams: nat, guard: real, fs: real)
    requires fs > 0.0
  {
    && (forall k | 0 <= k < |queue| :: ValidTx(queue[k], streams))
    && forall k | 0 < k < |queue| :: TxFollows(queue[k - 1], queue[k], guard, fs)
  }

  ghost predicate TxFollows(prev: TxStreamingConfig, next: TxStreamingConfig, guard: real, fs: real)
    requires fs > 0.0
  {
    && |prev.samples| > 0
    && EarliestNext(prev.sendTimeOffset, TxTotalSamples(prev), guard, fs) <= next.sendTimeOffset
  }

  /** As many channels as streams, all of one legal length. */
  ghost predicate SignalAcceptable(conf: TxStreamingConfig, streams: nat) {
    && 0 < |conf.samples| == streams && EqualLengths(conf.samples, |conf.samples[0]|)
    && |conf.samples[0]| <= MAX_SAMPLES_TX_SIGNAL
  }

  /** What is demanded of a request whatever the queue: something is sent, and a signal that is to be
      repeated is made of whole words. */
  ghost predicate TxAcceptable(conf: TxStreamingConfig, streams: nat) {
    && SignalAcceptable(conf, streams) && conf.numRepetitions >= 1
    && (conf.numRepetitions > 1 ==> |conf.samples[0]| % WORD_SIZE == 0)
  }

  /** A request is accepted if and only if, padded, it makes the queue longer and keeps it one that
      plays all its requests apart; and what is played of it is not padded if it is repeated. */
  lemma AcceptedIffQueue(queue: seq<TxStreamingConfig>, conf: TxStreamingConfig, streams: nat, guard: real, fs: real)
    requires fs > 0.0 && TxQueue(queue, streams, guard, fs) && SignalAcceptable(conf, streams)
    ensures AcceptTx(queue, conf, streams, guard, fs).Success? <==>
            && TxQueue(queue + [PaddedConfig(conf)], streams, guard, fs)
            && (conf.numRepetitions > 1 ==> PaddedConfig(conf) == conf)
  {
    var padded := PaddedConfig(conf);
    var queue' := queue + [padded];
    var length := NextMultipleOfWordSize(|conf.samples[0]|);
    if length == |conf.samples[0]| {
      forall c | 0 <= c < |conf.samples| ensures padded.samples[c] == conf.samples[c] {
        assert padded.samples[c] == Resized(conf.samples[c], length);
      }
      assert padded == conf;
    } else {
      assert padded.samples[0] == Resized(conf.samples[0], length);
    }
    if TxQueue(queue', streams, guard, fs) {
      assert ValidTx(queue'[|queue|], streams);
      assert queue != [] ==> TxFollows(queue'[|queue| - 1], queue'[|queue|], guard, fs);
    }
  }

  /** The queue after a request to append `conf`, or the error raised. */
  function AcceptTx(queue: seq<TxStreamingConfig>, conf: TxStreamingConfig, streams: nat, guard: real, fs: real)
    : (r: Result<seq<TxStreamingConfig>>)
    requires fs > 0.0
    requires queue != [] ==> |queue[|queue| - 1].samples| > 0
    ensures r.Success? && TxQueue(queue, streams, guard, fs) ==> TxQueue(r.value, streams, guard, fs)
    ensures r.Success? ==> |r.value| == |queue| + 1 && r.value[..|queue|] == queue && PaddedFrom(r.value[|queue|], conf)
    ensures r.Success? <==>
      && TxAcceptable(conf, streams) && (queue != [] ==> TxFollows(queue[|queue| - 1], conf, guard, fs))
    ensures r == Failure(OffsetTooSmall) <==>
      && SignalAcceptable(conf, streams) && queue != [] && !TxFollows(queue[|queue| - 1], conf, guard, fs)
    ensures r == Failure(NoSignal) <==> conf.samples == []
    ensures r == Failure(WrongSignalCount) <==> 0 < |conf.samples| != streams
    ensures r.Failure? && 0 < |conf.samples| == streams && !SignalAcceptable(conf, streams) ==>
              exists k :: FirstDefect(conf.samples, 0, k, MAX_SAMPLES_TX_SIGNAL, |conf.samples[0]|, r.error)
    ensures r == Failure(NoRepetitions) ==> conf.numRepetitions < 1
    ensures r == Failure(UnalignedRepetition) ==>
              conf.numRepetitions > 1 && conf.samples != [] && |conf.samples[0]| % WORD_SIZE != 0
  {
    var signalOutcome := AssertValidTxSignal(conf.samples, MAX_SAMPLES_TX_SIGNAL, streams);
    if signalOutcome.Fail? then Failure(signalOutcome.error)
    else
      var prev := if queue == [] then None else Some(queue[|queue| - 1]);
      var outcome := AssertValidTxStreamingConfig(prev, conf, guard, fs);
      if outcome.Fail? then Failure(outcome.error)
      else
        AcceptedTxIsValid(conf, PaddedConfig(conf), streams, prev, guard, fs);
        Success(queue + [PaddedConfig(conf)])
  }

  /** In every accepted queue the whole padded and repeated transmission of an entry ends at
      least the guard before any later entry starts. */
  lemma {:induction false} TxTransmissionsApart(
    queue: seq<TxStreamingConfig>, streams: nat, guard: real, fs: real, i: nat, j: nat)
    requires fs > 0.0 && guard >= 0.0
    requires TxQueue(queue, streams, guard, fs)
    requires i < j < |queue|
    ensures queue[i].sendTimeOffset + TxTotalSamples(queue[i]) as real / fs + guard <= queue[j].sendTimeOffset
    decreases j - i
  {
    assert TxFollows(queue[j - 1], queue[j], guard, fs);
    if i < j - 1 {
      TxTransmissionsApart(queue, streams, guard, fs, i, j - 1);
      assert TxTotalSamples(queue[j - 1]) >= 0;
      QuotientMonotone(0.0, TxTotalSamples(queue[j - 1]) as real, fs);
    }
  }

  // ---------- RX ----------

  ghost predicate RxQueue(queue: seq<RxStreamingConfig>, guard: real, fs: real)
    requires fs > 0.0
  {
    && (forall k | 0 <= k < |queue| :: ValidRx(queue[k]))
    && forall k | 0 < k < |queue| :: RxFollows(queue[k - 1], queue[k], guard, fs)
  }

  ghost predicate RxFollows(prev: RxStreamingConfig, next: RxStreamingConfig, guard: real, fs: real)
    requires fs > 0.0
  {
    EarliestNext(prev.receiveTimeOffset, prev.TotalSamples(), guard, fs) <= next.receiveTimeOffset
  }

  function AcceptRx(queue: seq<RxStreamingConfig>, conf: RxStreamingConfig, guard: real, fs: real)
    : (r: Result<seq<RxStreamingConfig>>)
    requires fs > 0.0
    ensures r.Success? && RxQueue(queue, guard, fs) ==> RxQueue(r.value, guard, fs)
    ensures r.Success? ==> r.value == queue + [conf]
    ensures r.Success? <==> ValidRx(conf) && (queue != [] ==> RxFollows(queue[|queue| - 1], conf, guard, fs))
    ensures r == Failure(OffsetTooSmall) <==>
      ValidRx(conf) && queue != [] && !RxFollows(queue[|queue| - 1], conf, guard, fs)
  {
    var prev := if queue == [] then None else Some(queue[|queue| - 1]);
    var outcome := AssertValidRxStreamingConfig(prev, conf, guard, fs);
    if outcome.Fail? then Failure(outcome.error) else Success(queue + [conf])
  }

  /** The time at which the last sample really streamed for `conf` has arrived. */
  ghost function RxWindowEnd(conf: RxStreamingConfig, fs: real): real
    requires fs > 0.0 && conf.TotalWordAlignedSamples().Success?
  {
    conf.receiveTimeOffset + conf.TotalWordAlignedSamples().value as real / fs
  }

  /** Validation counts unaligned samples, the radio streams aligned ones: fewer than eight more. */
  lemma AlignedExcess(conf: RxStreamingConfig)
    requires ValidRx(conf) && conf.TotalWordAlignedSamples().Success?
    ensures conf.TotalSamples() <= conf.TotalWordAlignedSamples().value <= conf.TotalSamples() + 7
    ensures conf.repetitionPeriod != 0 || conf.numRepetitions > 1 ==>
              conf.TotalWordAlignedSamples().value == conf.TotalSamples()
  {
    if conf.repetitionPeriod == 0 && conf.numRepetitions == 1 {
      assert conf.TotalSamples() == conf.numSamples;
    }
  }

  /** In every accepted queue the word-aligned windows really streamed are apart by at least the
      guard less the time of seven samples. */
  lemma {:induction false} RxWindowsApart(
    queue: seq<RxStreamingConfig>, guard: real, fs: real, i: nat, j: nat)
    requires fs > 0.0 && guard >= 0.0
    requires RxQueue(queue, guard, fs)
    requires i < j < |queue| && queue[i].TotalWordAlignedSamples().Success?
    ensures RxWindowEnd(queue[i], fs) + guard - 7.0 / fs <= queue[j].receiveTimeOffset
    decreases j - i
  {
    assert RxFollows(queue[j - 1], queue[j], guard, fs);
    if i < j - 1 {
      RxWindowsApart(queue, guard, fs, i, j - 1);
      QuotientMonotone(0.0, queue[j - 1].TotalSamples() as real, fs);
    } else {
      AlignedExcess(queue[i]);
      var total, aligned := queue[i].TotalSamples() as real, queue[i].TotalWordAlignedSamples().value as real;
      QuotientMonotone(aligned, total + 7.0, fs);
      assert (total + 7.0) / fs == total / fs + 7.0 / fs;
    }
  }

  ghost predicate RxWindowsDisjoint(queue: seq<RxStreamingConfig>, fs: real)
    requires fs > 0.0
  {
    forall i, j | 0 <= i < j < |queue| && queue[i].TotalWordAlignedSamples().Success? ::
      RxWindowEnd(queue[i], fs) <= queue[j].receiveTimeOffset
  }

  /** Validation keeps the streamed windows of every accepted queue disjoint exactly when the
      guard lasts at least seven samples. */
  lemma RxDisjointIffGuardLongEnough(guard: real, fs: real)
    requires fs > 0.0 && guard >= 0.0
    ensures guard * fs >= 7.0 <==>
            forall queue: seq<RxStreamingConfig> | RxQueue(queue, guard, fs) :: RxWindowsDisjoint(queue, fs)
  {
    if guard * fs >= 7.0 {
      QuotientMonotone(7.0, guard * fs, fs);
      forall queue: seq<RxStreamingConfig> | RxQueue(queue, guard, fs) ensures RxWindowsDisjoint(queue, fs) {
        forall i, j | 0 <= i < j < |queue| && queue[i].TotalWordAlignedSamples().Success?
          ensures RxWindowEnd(queue[i], fs) <= queue[j].receiveTimeOffset
        {
          RxWindowsApart(queue, guard, fs, i, j);
        }
      }
    } else {
      // One sample is streamed as eight: the second window may start before the first has ended.
      var first := RxStreamingConfig(1, 0.0, 1, 0);
      var second := RxStreamingConfig(1, EarliestNext(0.0, 1, guard, fs), 1, 0);
      var queue := [first, second];
      assert RxFollows(queue[0], queue[1], guard, fs);
      assert RxQueue(queue, guard, fs);
      assert RxWindowEnd(queue[0], fs) == 8.0 / fs;
      assert (guard * fs + 1.0) / fs == guard + 1.0 / fs;
      assert 8.0 / fs > (guard * fs + 1.0) / fs;
      assert !RxWindowsDisjoint(queue, fs);
    }
  }

  lemma QuotientMonotone(a: real, b: real, fs: real)
    requires fs > 0.0 && a <= b
    ensures a / fs <= b / fs
  {
  }
}
