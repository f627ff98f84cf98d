/** The several sample counts of one RX configuration: what validation counts, what the radio is
    asked for, what the memory reserves. Then the machine widths of the original: RX fields are
    32 bit, the arithmetic of the memory allocator is 64 bit. */
module SampleCounts {
  import opened Outcomes
  import opened Samples
  import opened StreamingConfig

  const TWO32: nat := 0x1_0000_0000
  const TWO34: nat := 0x4_0000_0000
  const TWO60: nat := 0x1000_0000_0000_0000
  const TWO64: nat := 0x1_0000_0000_0000_0000

  /** Of a validated configuration, the number of samples to ask the radio for exists exactly when
      the period is a multiple of eight. It is then the number the memory reserves per stream, and
      only otherwise can a recording be longer than its period. */
  lemma SampleConservation(conf: RxStreamingConfig)
    requires ValidRx(conf)
    ensures conf.TotalWordAlignedSamples().Success? <==> conf.repetitionPeriod % WORD_SIZE == 0
    ensures conf.TotalWordAlignedSamples().Success? ==>
              && conf.TotalWordAlignedSamples().value == conf.Period() * conf.numRepetitions
              && conf.WordAlignedNoSamples() <= conf.Period()
    ensures conf.Period() < conf.WordAlignedNoSamples() ==> conf.TotalWordAlignedSamples().Failure?
    ensures conf.numRepetitions > 1 ==> conf.TotalWordAlignedSamples().Success?
  {
    RoundingIsLeast(conf.numSamples, conf.repetitionPeriod);
    RoundingIsLeast(conf.repetitionPeriod, conf.repetitionPeriod);
  }

  // ---------- Machine widths ----------

  function Wrap32(x: nat): nat {
    x % TWO32
  }

  function Wrap64(x: nat): nat {
    x % TWO64
  }

  predicate Fields32(conf: RxStreamingConfig) {
    conf.numSamples < TWO32 && conf.numRepetitions < TWO32 && conf.repetitionPeriod < TWO32
  }

  /** `totalSamples` as the original computes it: both products are 32 bit. */
  function MachineTotalSamples(conf: RxStreamingConfig): nat {
    if conf.repetitionPeriod == 0 then Wrap32(conf.numSamples * conf.numRepetitions)
    else Wrap32(conf.repetitionPeriod * conf.numRepetitions)
  }

  /** `totalWordAlignedSamples` as the original computes it: a 64 bit and a 32 bit product. */
  function MachineTotalWordAligned(conf: RxStreamingConfig): nat {
    if conf.repetitionPeriod == 0 then Wrap64(conf.WordAlignedNoSamples() * conf.numRepetitions)
    else Wrap32(conf.repetitionPeriod * conf.numRepetitions)
  }

  /** The allocator's test for free memory, as the original computes it, when `end` samples are
      in use and a block of `total` samples per stream is requested. */
  predicate MachineGrants(end: nat, total: nat, streams: nat, memSize: nat) {
    Wrap64(Wrap64(end + Wrap64(Wrap64(total) * streams)) * SAMPLE_SIZE) < memSize
  }

  /** Once memory is granted, the machine's totals are the exact ones if and only if the product of
      period and repetitions is below 2^60. The block then fits the memory. */
  lemma GrantedTotalsAreExact(conf: RxStreamingConfig, end: nat, streams: nat, memSize: nat)
    requires ValidRx(conf) && Fields32(conf) && conf.repetitionPeriod % WORD_SIZE == 0
    requires memSize <= TWO34 && SAMPLE_SIZE * end < memSize
    requires 1 <= streams <= 4 && (conf.numRepetitions > 1 ==> streams == 1)
    requires MachineGrants(end, conf.Period() * conf.numRepetitions, streams, memSize)
    ensures conf.Period() * conf.numRepetitions < TWO60 <==> conf.Period() * conf.numRepetitions < TWO32
    ensures conf.Period() * conf.numRepetitions < TWO60 <==>
              && MachineTotalSamples(conf) == conf.TotalSamples()
              && conf.TotalWordAlignedSamples() == Success(MachineTotalWordAligned(conf))
    ensures conf.Period() * conf.numRepetitions < TWO60 ==>
              SAMPLE_SIZE * (end + conf.Period() * conf.numRepetitions * streams) < memSize
  {
    var total := conf.Period() * conf.numRepetitions;
    PeriodBound(conf);
    if total < TWO60 {
      GrantIsExact(end, total, streams, memSize);
      MachineTotalsExact(conf);
    } else {
      WrappedTotals(conf);
    }
  }

  /** A total of 2^32 or more is lost by one of the two computations. */
  lemma WrappedTotals(conf: RxStreamingConfig)
    requires ValidRx(conf) && Fields32(conf) && conf.repetitionPeriod % WORD_SIZE == 0
    requires conf.Period() * conf.numRepetitions > TWO32
    ensures MachineTotalSamples(conf) != conf.TotalSamples()
  {
    PeriodBound(conf);
    if conf.repetitionPeriod == 0 && conf.numRepetitions > 1 {
      assert conf.Period() == conf.numSamples;
    }
  }

  lemma PeriodBound(conf: RxStreamingConfig)
    requires Fields32(conf)
    ensures conf.Period() <= TWO32
  {
    RoundingIsLeast(conf.numSamples, TWO32);
  }

  lemma MachineTotalsExact(conf: RxStreamingConfig)
    requires ValidRx(conf) && conf.repetitionPeriod % WORD_SIZE == 0
    requires conf.Period() * conf.numRepetitions < TWO32
    ensures MachineTotalSamples(conf) == conf.TotalSamples()
    ensures conf.TotalWordAlignedSamples() == Success(MachineTotalWordAligned(conf))
  {
    SampleConservation(conf);
    MulMonotone(conf.numRepetitions, conf.numSamples, conf.WordAlignedNoSamples());
  }

  /** Within these bounds the machine grants memory exactly when there is enough. */
  lemma GrantIsExact(end: nat, total: nat, streams: nat, memSize: nat)
    requires memSize <= TWO34 && SAMPLE_SIZE * end < memSize
    requires total < TWO60 && 1 <= streams <= 4 && (streams == 1 || total <= TWO32)
    ensures MachineGrants(end, total, streams, memSize) <==> SAMPLE_SIZE * (end + total * streams) < memSize
    ensures MachineGrants(end, total, streams, memSize) ==> total < TWO32
  {
    assert total <= total * streams <= TWO60 by {
      if streams == 2 {
        assert total * streams == 2 * total;
      } else if streams == 3 {
        assert total * streams == 3 * total;
      } else if streams == 4 {
        assert total * streams == 4 * total;
      }
    }
    var need := total * streams;
    assert Wrap64(need) == need && Wrap64(total) == total;
    assert Wrap64(end + need) == end + need;
    assert Wrap64((end + need) * SAMPLE_SIZE) == (end + need) * SAMPLE_SIZE;
  }

  /** Without the bound the grant means nothing: this valid configuration asks for 2^62 samples,
      and its byte count wraps to zero. */
  lemma WrappedGrant(memSize: nat)
    requires memSize > 0
    ensures var conf := RxStreamingConfig(8, 0.0, 0x8000_0000, 0x8000_0000);
            && ValidRx(conf) && Fields32(conf)
            && MachineGrants(0, conf.Period() * conf.numRepetitions, 1, memSize)
            && MachineTotalWordAligned(conf) == 0
            && conf.TotalWordAlignedSamples() == Success(0x4000_0000_0000_0000)
  {
  }
}
