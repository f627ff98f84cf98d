/** Streaming configurations: word alignment, validation and resizing of signals
    (uhd_wrapper/lib/config.cpp). Times and rates are reals. */
module StreamingConfig {
  import opened Outcomes
  import opened Samples

  const WORD_SIZE: nat := 8
  const MAX_SAMPLES_TX_SIGNAL: nat := 200000

  datatype TxStreamingConfig = TxStreamingConfig(samples: MimoSignal, sendTimeOffset: real, numRepetitions: int)

  datatype RxStreamingConfig = RxStreamingConfig(
    numSamples: nat, receiveTimeOffset: real, numRepetitions: nat, repetitionPeriod: nat)
  {
    function WordAlignedNoSamples(): nat {
      NextMultipleOfWordSize(numSamples)
    }

    function TotalSamples(): nat {
      if repetitionPeriod == 0 then numSamples * numRepetitions else repetitionPeriod * numRepetitions
    }

    function TotalWordAlignedSamples(): Result<nat> {
      if repetitionPeriod == 0 then
        Success(WordAlignedNoSamples() * numRepetitions)
      else if repetitionPeriod != NextMultipleOfWordSize(repetitionPeriod) then
        Failure(UnalignedPeriod)
      else
        Success(repetitionPeriod * numRepetitions)
    }

    /** Samples from the start of one repetition to the start of the next. */
    function Period(): nat {
      if repetitionPeriod == 0 then WordAlignedNoSamples() else repetitionPeriod
    }
  }

  // ---------- Word alignment ----------

  function NextMultipleOfWordSize(count: nat): (r: nat)
    ensures r % WORD_SIZE == 0 && count <= r < count + WORD_SIZE
  {
    var rem := count % WORD_SIZE;
    if rem == 0 then count else count + WORD_SIZE - rem
  }

  /** Rounding gives the least multiple of the word size that is large enough; hence it keeps
      order and does nothing the second time. */
  lemma RoundingIsLeast(count: nat, m: nat)
    ensures m % WORD_SIZE == 0 ==> (count <= m <==> NextMultipleOfWordSize(count) <= m)
    ensures count <= m ==> NextMultipleOfWordSize(count) <= NextMultipleOfWordSize(m)
    ensures NextMultipleOfWordSize(NextMultipleOfWordSize(count)) == NextMultipleOfWordSize(count)
    ensures NextMultipleOfWordSize(count) == count <==> count % WORD_SIZE == 0
  {
  }

  /** Padding a signal of legal length cannot break the length limit, which is checked before. */
  lemma PaddedLengthWithinLimit(count: nat)
    ensures count <= MAX_SAMPLES_TX_SIGNAL <==> NextMultipleOfWordSize(count) <= MAX_SAMPLES_TX_SIGNAL
  {
    RoundingIsLeast(count, MAX_SAMPLES_TX_SIGNAL);
  }

  // ---------- Resizing ----------

  /** A vector resized to `length`: cut, or extended with zero samples. */
  function Resized(xs: seq<Sample>, length: nat): (r: seq<Sample>)
    ensures |r| == length
    ensures forall j | 0 <= j < length :: r[j] == if j < |xs| then xs[j] else ZERO
  {
    if length <= |xs| then xs[..length] else xs + Zeros(length - |xs|)
  }

  ghost predicate EqualLengths(signal: MimoSignal, length: nat) {
    forall c | 0 <= c < |signal| :: |signal[c]| == length
  }

  /** `r` is `signal` with every channel resized to `length`. */
  ghost predicate AllResized(signal: MimoSignal, r: MimoSignal, length: nat) {
    |r| == |signal| && forall c | 0 <= c < |r| :: r[c] == Resized(signal[c], length)
  }

  /** A multi-channel signal whose channels are resized in place. */
  class MimoBuffer {
    var channels: MimoSignal

    constructor (signal: MimoSignal)
      ensures channels == signal
    {
      channels := signal;
    }

    method ResizeSignal(length: nat)
      modifies this
      ensures AllResized(old(channels), channels, length)
    {
      var c := 0;
      while c < |channels|
        invariant 0 <= c <= |channels| == |old(channels)|
        invariant forall k | 0 <= k < c :: channels[k] == Resized(old(channels)[k], length)
        invariant forall k | c <= k < |channels| :: channels[k] == old(channels)[k]
      {
        channels := channels[c := Resized(channels[c], length)];
        c := c + 1;
      }
    }

    /** Every channel grows by fewer than eight zero samples, to a multiple of eight. */
    method ExtendToWordSize()
      requires |channels| > 0
      modifies this
      ensures AllResized(old(channels), channels, NextMultipleOfWordSize(|old(channels)[0]|))
    {
      ResizeSignal(NextMultipleOfWordSize(|channels[0]|));
    }

    method ShortenSignal(length: nat) returns (r: Outcome)
      requires |channels| > 0
      modifies this
      ensures r == if |old(channels)[0]| < length then Fail(SignalTooShort) else Pass
      ensures r.Fail? ==> channels == old(channels)
      ensures r.Pass? ==> AllResized(old(channels), channels, length)
    {
      if |channels[0]| < length {
        return Fail(SignalTooShort);
      }
      ResizeSignal(length);
      return Pass;
    }
  }

  /** Shortening undoes padding. */
  lemma ShortenUndoesPad(signal: MimoSignal, padded: MimoSignal, shortened: MimoSignal, length: nat)
    requires EqualLengths(signal, length)
    requires AllResized(signal, padded, NextMultipleOfWordSize(length))
    requires AllResized(padded, shortened, length)
    ensures shortened == signal
  {
    forall c | 0 <= c < |signal| ensures shortened[c] == signal[c] {
      assert Resized(Resized(signal[c], NextMultipleOfWordSize(length)), length) == signal[c];
    }
  }

  // ---------- Validation ----------

  /** The first defect of the channels from `c` on, in the order the original looks for them. */
  function ChannelsOutcome(signal: MimoSignal, c: nat, maxSamples: nat, length: nat): (r: Outcome)
    requires c <= |signal|
    ensures r.Pass? <==> forall k | c <= k < |signal| :: |signal[k]| == length && |signal[k]| <= maxSamples
    decreases |signal| - c
  {
    if c == |signal| then Pass
    else if |signal[c]| > maxSamples then Fail(SignalTooLong)
    else if |signal[c]| != length then Fail(UnequalLengths)
    else ChannelsOutcome(signal, c + 1, maxSamples, length)
  }

  /** Channel k is the first, from c on, that is too long or of another length. */
  ghost predicate FirstDefect(signal: MimoSignal, c: nat, k: nat, maxSamples: nat, length: nat, e: UsrpError) {
    && c <= k < |signal|
    && (forall j | c <= j < k :: |signal[j]| == length && |signal[j]| <= maxSamples)
    && (e == SignalTooLong <==> |signal[k]| > maxSamples)
    && (e == UnequalLengths <==> |signal[k]| <= maxSamples && |signal[k]| != length)
    && (e == SignalTooLong || e == UnequalLengths)
  }

  lemma {:induction false} ChannelsDefect(signal: MimoSignal, c: nat, maxSamples: nat, length: nat) returns (k: nat)
    requires c <= |signal| && ChannelsOutcome(signal, c, maxSamples, length).Fail?
    ensures FirstDefect(signal, c, k, maxSamples, length, ChannelsOutcome(signal, c, maxSamples, length).error)
    decreases |signal| - c
  {
    k := c;
    if |signal[c]| == length && |signal[c]| <= maxSamples {
      k := ChannelsDefect(signal, c + 1, maxSamples, length);
    }
  }

  lemma SignalDefect(signal: MimoSignal, maxSamples: nat, length: nat)
    requires ChannelsOutcome(signal, 0, maxSamples, length).Fail?
    ensures exists k :: FirstDefect(signal, 0, k, maxSamples, length,
                                    ChannelsOutcome(signal, 0, maxSamples, length).error)
  {
    var k := ChannelsDefect(signal, 0, maxSamples, length);
  }

  /** The channels are looked at only when there are as many as streams. */
  function AssertValidTxSignal(signal: MimoSignal, maxSamples: nat, noTxStreams: nat): (r: Outcome)
    ensures r.Pass? <==>
      && 0 < |signal| == noTxStreams
      && EqualLengths(signal, |signal[0]|)
      && |signal[0]| <= maxSamples
    ensures r == Fail(NoSignal) <==> signal == []
    ensures r == Fail(WrongSignalCount) <==> 0 < |signal| != noTxStreams
    ensures r.Fail? && 0 < |signal| == noTxStreams ==>
              exists k :: FirstDefect(signal, 0, k, maxSamples, |signal[0]|, r.error)
  {
    if |signal| == 0 then Fail(NoSignal)
    else if |signal| != noTxStreams then Fail(WrongSignalCount)
    else
      var r := ChannelsOutcome(signal, 0, maxSamples, |signal[0]|);
      if r.Fail? then SignalDefect(signal, maxSamples, |signal[0]|); r else r
  }

  /** Samples the radio plays for a configuration, on each stream. */
  function TxTotalSamples(conf: TxStreamingConfig): int
    requires |conf.samples| > 0
  {
    |conf.samples[0]| * conf.numRepetitions
  }

  /** The earliest start the guard allows after a configuration that starts at `offset` and
      lasts for `total` samples at rate `fs`. */
  function EarliestNext(offset: real, total: int, guard: real, fs: real): real
    requires fs > 0.0
  {
    offset + guard + total as real / fs
  }

  function AssertValidTxStreamingConfig(prev: Option<TxStreamingConfig>, conf: TxStreamingConfig,
                                        guard: real, fs: real): (r: Outcome)
    requires fs > 0.0 && |conf.samples| > 0
    requires prev.Some? ==> |prev.value.samples| > 0
    ensures r.Pass? <==>
      && (prev.Some? ==>
            EarliestNext(prev.value.sendTimeOffset, TxTotalSamples(prev.value), guard, fs) <= conf.sendTimeOffset)
      && conf.numRepetitions >= 1
      && (conf.numRepetitions != 1 ==> |conf.samples[0]| % WORD_SIZE == 0)
    ensures r == Fail(OffsetTooSmall) <==>
      && prev.Some?
      && conf.sendTimeOffset < EarliestNext(prev.value.sendTimeOffset, TxTotalSamples(prev.value), guard, fs)
    ensures r.Fail? ==> r.error in {OffsetTooSmall, NoRepetitions, UnalignedRepetition}
    ensures r == Fail(NoRepetitions) ==> conf.numRepetitions < 1
    ensures r == Fail(UnalignedRepetition) ==> conf.numRepetitions > 1 && |conf.samples[0]| % WORD_SIZE != 0
  {
    var minimumRequiredOffset :=
      if prev.Some? then
        EarliestNext(prev.value.sendTimeOffset, TxTotalSamples(prev.value), guard, fs)
      else
        conf.sendTimeOffset;
    if conf.sendTimeOffset < minimumRequiredOffset then Fail(OffsetTooSmall)
    else if conf.numRepetitions <= 0 then Fail(NoRepetitions)
    else if conf.numRepetitions != 1 && NextMultipleOfWordSize(|conf.samples[0]|) != |conf.samples[0]| then
      Fail(UnalignedRepetition)
    else Pass
  }

  function AssertValidRxStreamingConfig(prev: Option<RxStreamingConfig>, conf: RxStreamingConfig,
                                        guard: real, fs: real): (r: Outcome)
    requires fs > 0.0
    ensures r.Pass? <==>
      && ValidRx(conf)
      && (prev.Some? ==>
            EarliestNext(prev.value.receiveTimeOffset, prev.value.TotalSamples(), guard, fs) <= conf.receiveTimeOffset)
    ensures r == Fail(NoRepetitions) <==> conf.numRepetitions < 1
    ensures r == Fail(PeriodBelowSamples) <==> conf.numRepetitions >= 1 && 0 < conf.repetitionPeriod < conf.numSamples
    ensures r == Fail(UnalignedPeriod) ==> conf.numRepetitions > 1 && conf.repetitionPeriod % WORD_SIZE != 0
    ensures r == Fail(UnalignedRepetition) ==>
              conf.numRepetitions > 1 && conf.repetitionPeriod == 0 && conf.numSamples % WORD_SIZE != 0
    ensures r.Fail? && ValidRx(conf) ==> r.error == OffsetTooSmall
    ensures r == Fail(OffsetTooSmall) ==> ValidRx(conf)
    ensures r.Fail? ==>
              r.error in {NoRepetitions, PeriodBelowSamples, UnalignedPeriod, UnalignedRepetition, OffsetTooSmall}
  {
    if conf.numRepetitions < 1 then Fail(NoRepetitions)
    else if conf.repetitionPeriod != 0 && conf.repetitionPeriod < conf.numSamples then Fail(PeriodBelowSamples)
    else if conf.numRepetitions > 1 && conf.repetitionPeriod > 0
            && conf.repetitionPeriod != NextMultipleOfWordSize(conf.repetitionPeriod) then Fail(UnalignedPeriod)
    else if conf.numRepetitions > 1 && conf.repetitionPeriod == 0
            && conf.WordAlignedNoSamples() != conf.numSamples then Fail(UnalignedRepetition)
    else
      var minimumRequiredOffset :=
        if prev.Some? then
          EarliestNext(prev.value.receiveTimeOffset, prev.value.TotalSamples(), guard, fs)
        else
          conf.receiveTimeOffset;
      if conf.receiveTimeOffset < minimumRequiredOffset then Fail(OffsetTooSmall) else Pass
  }

  /** What validation demands of one RX configuration by itself. */
  predicate ValidRx(conf: RxStreamingConfig) {
    && conf.numRepetitions >= 1
    && (conf.repetitionPeriod != 0 ==> conf.numSamples <= conf.repetitionPeriod)
    && (conf.numRepetitions > 1 ==>
          if conf.repetitionPeriod > 0 then conf.repetitionPeriod % WORD_SIZE == 0
          else conf.numSamples % WORD_SIZE == 0)
  }

  /** What validation and padding guarantee of one queued TX configuration. */
  ghost predicate ValidTx(conf: TxStreamingConfig, streams: nat) {
    && 0 < |conf.samples| == streams
    && EqualLengths(conf.samples, |conf.samples[0]|)
    && |conf.samples[0]| <= MAX_SAMPLES_TX_SIGNAL
    && |conf.samples[0]| % WORD_SIZE == 0
    && conf.numRepetitions >= 1
  }

  /** `queued` is what the queue keeps of the user's configuration `conf`: the samples are padded. */
  ghost predicate PaddedFrom(queued: TxStreamingConfig, conf: TxStreamingConfig) {
    && |conf.samples| > 0
    && AllResized(conf.samples, queued.samples, NextMultipleOfWordSize(|conf.samples[0]|))
    && queued.sendTimeOffset == conf.sendTimeOffset
    && queued.numRepetitions == conf.numRepetitions
  }

  /** Acceptance of a TX configuration turns it into a padded, valid queue entry. */
  lemma AcceptedTxIsValid(conf: TxStreamingConfig, queued: TxStreamingConfig, streams: nat,
                          prev: Option<TxStreamingConfig>, guard: real, fs: real)
    requires fs > 0.0 && (prev.Some? ==> |prev.value.samples| > 0)
    requires AssertValidTxSignal(conf.samples, MAX_SAMPLES_TX_SIGNAL, streams).Pass?
    requires AssertValidTxStreamingConfig(prev, conf, guard, fs).Pass?
    requires PaddedFrom(queued, conf)
    ensures ValidTx(queued, streams)
  {
    PaddedLengthWithinLimit(|conf.samples[0]|);
    forall c | 0 <= c < |queued.samples| ensures |queued.samples[c]| == |queued.samples[0]| {
      assert queued.samples[c] == Resized(conf.samples[c], NextMultipleOfWordSize(|conf.samples[0]|));
    }
  }

  /** What a queued entry makes the radio play on stream s, in terms of the user's signal: the
      signal repeated when repetitions are asked for, and the signal followed by fewer than eight
      zeros otherwise. No padding ever lands between two repetitions. */
  lemma PlayedFromUserSignal(conf: TxStreamingConfig, queued: TxStreamingConfig, s: nat)
    requires 0 <= s < |conf.samples| && EqualLengths(conf.samples, |conf.samples[0]|)
    requires PaddedFrom(queued, conf)
    requires conf.numRepetitions >= 1
    requires conf.numRepetitions != 1 ==> |conf.samples[0]| % WORD_SIZE == 0
    ensures |queued.samples| == |conf.samples| && TxTotalSamples(queued) >= 0
    ensures conf.numRepetitions > 1 ==>
              Cyclic(queued.samples[s], TxTotalSamples(queued)) == Repeat(conf.samples[s], conf.numRepetitions)
    ensures conf.numRepetitions == 1 ==>
              exists k: nat :: k < WORD_SIZE
                && Cyclic(queued.samples[s], TxTotalSamples(queued)) == conf.samples[s] + Zeros(k)
  {
    var u := conf.samples[s];
    var p := queued.samples[s];
    var padded := NextMultipleOfWordSize(|u|);
    assert p == Resized(u, padded);
    assert |queued.samples[0]| == padded;
    if conf.numRepetitions > 1 {
      assert p == u;
      CyclicIsRepeat(u, conf.numRepetitions);
    } else {
      var k := padded - |u|;
      assert p == u + Zeros(k);
      CyclicOnce(p);
    }
  }

  lemma CyclicOnce(xs: seq<Sample>)
    ensures Cyclic(xs, |xs|) == xs
  {
    forall j | 0 <= j < |xs| ensures xs[j % |xs|] == xs[j] {
      DivModUnique(j, |xs|, 0, j);
    }
  }

  // ---------- Packets ----------

  function CalcNoPackages(noSamples: nat, spb: nat): nat
    requires spb > 0
  {
    (noSamples + spb - 1) / spb
  }

  function CalcNoSamplesLastBuffer(noSamples: nat, spb: nat): nat
    requires spb > 0
  {
    var noSamplesLastBuffer := noSamples % spb;
    if noSamplesLastBuffer == 0 then spb else noSamplesLastBuffer
  }

  /** The packets other than the last are full, the last is not empty, and together they are
      the signal. */
  lemma PackagesCover(noSamples: nat, spb: nat)
    requires spb > 0 && noSamples > 0
    ensures CalcNoPackages(noSamples, spb) >= 1
    ensures (CalcNoPackages(noSamples, spb) - 1) * spb + CalcNoSamplesLastBuffer(noSamples, spb) == noSamples
    ensures 1 <= CalcNoSamplesLastBuffer(noSamples, spb) <= spb
  {
    var q, rem := noSamples / spb, noSamples % spb;
    assert noSamples == spb * q + rem;
    if rem == 0 {
      DivModUnique(noSamples + spb - 1, spb, q, spb - 1);
      assert (q - 1) * spb + spb == noSamples;
    } else {
      assert noSamples + spb - 1 == spb * (q + 1) + (rem - 1);
      DivModUnique(noSamples + spb - 1, spb, q + 1, rem - 1);
    }
  }
}
