/** The layout of recorded blocks in a buffer, in samples. A block holds one region per stream;
    regions follow one another without gaps. A block with repetitions is replayed as several
    windows, which are numbered through from the first block to the last. */
module BlockLayout {
  import opened Samples

  datatype ReplayBlock = ReplayBlock(numSamples: nat, repetitions: nat, repetitionPeriod: nat) {
    /** The length of the region of each stream. */
    function TotalSamples(): nat {
      repetitionPeriod * repetitions
    }

    /** How many replay requests the block answers. A block recorded with no repetition still
        answers one, because the cursor moves to a block before it looks at its repetitions. */
    function Replays(): (r: nat)
      ensures r >= 1
    {
      if repetitions == 0 then 1 else repetitions
    }
  }

  // ---------- Regions ----------

  function SamplesBefore(blocks: seq<ReplayBlock>, streams: nat, k: nat): nat
    requires k <= |blocks|
  {
    if k == 0 then 0 else SamplesBefore(blocks, streams, k - 1) + blocks[k - 1].TotalSamples() * streams
  }

  /** The first sample of stream s of block k. */
  function RegionStart(blocks: seq<ReplayBlock>, streams: nat, k: nat, s: nat): nat
    requires k < |blocks|
  {
    SamplesBefore(blocks, streams, k) + blocks[k].TotalSamples() * s
  }

  ghost predicate InRegion(blocks: seq<ReplayBlock>, streams: nat, k: nat, s: nat, a: nat) {
    && k < |blocks| && s < streams
    && RegionStart(blocks, streams, k, s) <= a < RegionStart(blocks, streams, k, s) + blocks[k].TotalSamples()
  }

  ghost predicate Owned(blocks: seq<ReplayBlock>, streams: nat, a: nat) {
    exists k, s :: InRegion(blocks, streams, k, s, a)
  }

  lemma {:induction false} SamplesBeforeMonotone(blocks: seq<ReplayBlock>, streams: nat, k: nat, m: nat)
    requires k <= m <= |blocks|
    ensures SamplesBefore(blocks, streams, k) <= SamplesBefore(blocks, streams, m)
    decreases m
  {
    if k < m {
      SamplesBeforeMonotone(blocks, streams, k, m - 1);
    }
  }

  /** The region of a stream lies inside its block. */
  lemma RegionInBlock(blocks: seq<ReplayBlock>, streams: nat, k: nat, s: nat)
    requires k < |blocks| && s < streams
    ensures SamplesBefore(blocks, streams, k) <= RegionStart(blocks, streams, k, s)
    ensures RegionStart(blocks, streams, k, s) + blocks[k].TotalSamples() <= SamplesBefore(blocks, streams, k + 1)
  {
    var t := blocks[k].TotalSamples();
    MulMonotone(t, s + 1, streams);
    assert t * (s + 1) == t * s + t;
  }

  /** Regions of different (block, stream) pairs do not overlap. */
  lemma RegionsDisjoint(blocks: seq<ReplayBlock>, streams: nat, k: nat, s: nat, k': nat, s': nat)
    requires k < |blocks| && s < streams && k' < |blocks| && s' < streams
    requires k < k' || (k == k' && s < s')
    ensures RegionStart(blocks, streams, k, s) + blocks[k].TotalSamples() <= RegionStart(blocks, streams, k', s')
  {
    if k < k' {
      RegionInBlock(blocks, streams, k, s);
      RegionInBlock(blocks, streams, k', s');
      SamplesBeforeMonotone(blocks, streams, k + 1, k');
    } else {
      var t := blocks[k].TotalSamples();
      MulMonotone(t, s + 1, s');
      assert t * (s + 1) == t * s + t;
    }
  }

  /** The block, of the first m, that owns sample a. */
  function OwnerBlock(blocks: seq<ReplayBlock>, streams: nat, m: nat, a: nat): (k: nat)
    requires m <= |blocks| && a < SamplesBefore(blocks, streams, m)
    ensures k < m && SamplesBefore(blocks, streams, k) <= a < SamplesBefore(blocks, streams, k + 1)
  {
    if SamplesBefore(blocks, streams, m - 1) <= a then m - 1 else OwnerBlock(blocks, streams, m - 1, a)
  }

  /** The regions tile the used part of the buffer: every sample below the end belongs to one
      region, and to no other. */
  lemma RegionsTile(blocks: seq<ReplayBlock>, streams: nat, a: nat)
    requires a < SamplesBefore(blocks, streams, |blocks|)
    ensures Owned(blocks, streams, a)
    ensures forall k, s, k', s' | InRegion(blocks, streams, k, s, a) && InRegion(blocks, streams, k', s', a) ::
              k == k' && s == s'
  {
    SampleIsOwned(blocks, streams, a);
    forall k, s, k', s' | InRegion(blocks, streams, k, s, a) && InRegion(blocks, streams, k', s', a)
      ensures k == k' && s == s'
    {
      OwnerUnique(blocks, streams, k, s, k', s', a);
    }
  }

  lemma SampleIsOwned(blocks: seq<ReplayBlock>, streams: nat, a: nat)
    requires a < SamplesBefore(blocks, streams, |blocks|)
    ensures Owned(blocks, streams, a)
  {
    var k := OwnerBlock(blocks, streams, |blocks|, a);
    var t := blocks[k].TotalSamples();
    var d := a - SamplesBefore(blocks, streams, k);
    assert d < t * streams;
    if t > 0 {
      var s := d / t;
      assert d == t * s + d % t;
      if streams <= s {
        MulMonotone(t, streams, s);
      }
      InRegionOf(blocks, streams, k, s, a);
    }
  }

  lemma InRegionOf(blocks: seq<ReplayBlock>, streams: nat, k: nat, s: nat, a: nat)
    requires k < |blocks| && s < streams
    requires RegionStart(blocks, streams, k, s) <= a < RegionStart(blocks, streams, k, s) + blocks[k].TotalSamples()
    ensures Owned(blocks, streams, a)
  {
    assert InRegion(blocks, streams, k, s, a);
  }

  lemma OwnerUnique(blocks: seq<ReplayBlock>, streams: nat, k: nat, s: nat, k': nat, s': nat, a: nat)
    requires InRegion(blocks, streams, k, s, a) && InRegion(blocks, streams, k', s', a)
    ensures k == k' && s == s'
  {
    if k < k' || (k == k' && s < s') {
      RegionsDisjoint(blocks, streams, k, s, k', s');
    } else if k' < k || (k == k' && s' < s) {
      RegionsDisjoint(blocks, streams, k', s', k, s);
    }
  }

  /** Samples at or above the end belong to no region. */
  lemma NothingAboveEnd(blocks: seq<ReplayBlock>, streams: nat, k: nat, s: nat, a: nat)
    requires InRegion(blocks, streams, k, s, a)
    ensures a < SamplesBefore(blocks, streams, |blocks|)
  {
    RegionInBlock(blocks, streams, k, s);
    SamplesBeforeMonotone(blocks, streams, k + 1, |blocks|);
  }

  /** Recording further blocks moves no block recorded before. */
  lemma {:induction false} SamplesBeforePrefix(
    blocks: seq<ReplayBlock>, more: seq<ReplayBlock>, streams: nat, k: nat)
    requires k <= |blocks|
    ensures SamplesBefore(blocks + more, streams, k) == SamplesBefore(blocks, streams, k)
  {
    if k > 0 {
      SamplesBeforePrefix(blocks, more, streams, k - 1);
    }
  }

  lemma RegionPrefix(blocks: seq<ReplayBlock>, more: seq<ReplayBlock>, streams: nat, k: nat, s: nat)
    requires k < |blocks|
    ensures RegionStart(blocks + more, streams, k, s) == RegionStart(blocks, streams, k, s)
  {
    SamplesBeforePrefix(blocks, more, streams, k);
  }

  // ---------- Windows ----------

  function ReplaysBefore(blocks: seq<ReplayBlock>, k: nat): nat
    requires k <= |blocks|
  {
    if k == 0 then 0 else ReplaysBefore(blocks, k - 1) + blocks[k - 1].Replays()
  }

  function TotalReplays(blocks: seq<ReplayBlock>): nat {
    ReplaysBefore(blocks, |blocks|)
  }

  lemma {:induction false} ReplaysBeforeMonotone(blocks: seq<ReplayBlock>, k: nat, m: nat)
    requires k <= m <= |blocks|
    ensures ReplaysBefore(blocks, k) + (m - k) <= ReplaysBefore(blocks, m)
    decreases m
  {
    if k < m {
      ReplaysBeforeMonotone(blocks, k, m - 1);
    }
  }

  lemma {:induction false} ReplaysBeforePrefix(blocks: seq<ReplayBlock>, more: seq<ReplayBlock>, k: nat)
    requires k <= |blocks|
    ensures ReplaysBefore(blocks + more, k) == ReplaysBefore(blocks, k)
  {
    if k > 0 {
      ReplaysBeforePrefix(blocks, more, k - 1);
    }
  }

  function RepetitionsBefore(blocks: seq<ReplayBlock>, k: nat): nat
    requires k <= |blocks|
  {
    if k == 0 then 0 else RepetitionsBefore(blocks, k - 1) + blocks[k - 1].repetitions
  }

  /** The blocks answer exactly as many requests as repetitions were recorded, if and only if no
      block was recorded with no repetition; otherwise they answer more. */
  lemma {:induction false} RequestsAreRepetitions(blocks: seq<ReplayBlock>, k: nat)
    requires k <= |blocks|
    ensures RepetitionsBefore(blocks, k) <= ReplaysBefore(blocks, k)
    ensures RepetitionsBefore(blocks, k) == ReplaysBefore(blocks, k) <==>
            forall i | 0 <= i < k :: blocks[i].repetitions >= 1
  {
    if k > 0 {
      RequestsAreRepetitions(blocks, k - 1);
    }
  }

  /** The block, of the first m, that answers replay request n. */
  function BlockOf(blocks: seq<ReplayBlock>, m: nat, n: nat): (k: nat)
    requires m <= |blocks| && n < ReplaysBefore(blocks, m)
    ensures k < m && ReplaysBefore(blocks, k) <= n < ReplaysBefore(blocks, k) + blocks[k].Replays()
  {
    if ReplaysBefore(blocks, m - 1) <= n then m - 1 else BlockOf(blocks, m - 1, n)
  }

  /** The repetition within its block that replay request n stands for. */
  function RepetitionOf(blocks: seq<ReplayBlock>, n: nat): nat
    requires n < TotalReplays(blocks)
  {
    n - ReplaysBefore(blocks, BlockOf(blocks, |blocks|, n))
  }

  /** Block and repetition are determined by the number of the request. */
  lemma WindowUnique(blocks: seq<ReplayBlock>, n: nat, k: nat, r: nat)
    requires k < |blocks| && r < blocks[k].Replays() && n == ReplaysBefore(blocks, k) + r
    ensures n < TotalReplays(blocks)
    ensures BlockOf(blocks, |blocks|, n) == k && RepetitionOf(blocks, n) == r
  {
    assert ReplaysBefore(blocks, k + 1) == ReplaysBefore(blocks, k) + blocks[k].Replays();
    ReplaysBeforeMonotone(blocks, k + 1, |blocks|);
    var k' := BlockOf(blocks, |blocks|, n);
    assert ReplaysBefore(blocks, k' + 1) == ReplaysBefore(blocks, k') + blocks[k'].Replays();
    if k < k' {
      ReplaysBeforeMonotone(blocks, k + 1, k');
    } else if k' < k {
      ReplaysBeforeMonotone(blocks, k' + 1, k);
    }
  }

  /** Where repetition r of block k starts on stream s. */
  function WindowAt(blocks: seq<ReplayBlock>, streams: nat, k: nat, r: nat, s: nat): nat
    requires k < |blocks|
  {
    RegionStart(blocks, streams, k, s) + r * blocks[k].repetitionPeriod
  }

  /** Where replay request n starts on stream s. */
  function WindowStart(blocks: seq<ReplayBlock>, streams: nat, n: nat, s: nat): nat
    requires n < TotalReplays(blocks)
  {
    WindowAt(blocks, streams, BlockOf(blocks, |blocks|, n), RepetitionOf(blocks, n), s)
  }

  /** Repetition r of a block is replayed, whatever has been recorded since, from where the stream's
      recording started when the block was the newest, plus r periods. */
  lemma ReplayFollowsRecord(blocks: seq<ReplayBlock>, more: seq<ReplayBlock>, streams: nat, r: nat, s: nat)
    requires blocks != [] && r < blocks[|blocks| - 1].Replays()
    ensures var k, n := |blocks| - 1, ReplaysBefore(blocks, |blocks| - 1) + r;
            && n < TotalReplays(blocks + more)
            && WindowStart(blocks + more, streams, n, s)
               == RegionStart(blocks, streams, k, s) + r * blocks[k].repetitionPeriod
  {
    var k := |blocks| - 1;
    ReplaysBeforePrefix(blocks, more, k);
    RegionPrefix(blocks, more, streams, k, s);
    WindowUnique(blocks + more, ReplaysBefore(blocks, k) + r, k, r);
  }

  ghost predicate WellFormed(block: ReplayBlock, streams: nat) {
    block.numSamples <= block.repetitionPeriod && (block.repetitions > 1 ==> streams == 1)
  }

  /** A window lies inside the region recorded for its block and stream, unless the block was
      recorded with no repetition and yet some samples. */
  lemma WindowInsideRegion(blocks: seq<ReplayBlock>, streams: nat, k: nat, r: nat, s: nat)
    requires k < |blocks| && r < blocks[k].Replays() && s < streams
    requires WellFormed(blocks[k], streams)
    ensures RegionStart(blocks, streams, k, s) <= WindowAt(blocks, streams, k, r, s)
    ensures blocks[k].repetitions >= 1 || blocks[k].numSamples == 0 <==>
            WindowAt(blocks, streams, k, r, s) + blocks[k].numSamples
              <= RegionStart(blocks, streams, k, s) + blocks[k].TotalSamples()
  {
    var period := blocks[k].repetitionPeriod;
    if blocks[k].repetitions >= 1 {
      MulMonotone(period, r + 1, blocks[k].repetitions);
      assert period * (r + 1) == r * period + period;
    } else {
      assert blocks[k].TotalSamples() == 0;
    }
  }

  /** `[a, a + n)` and `[a', a' + n')` do not overlap. */
  ghost predicate Apart(a: nat, n: nat, a': nat, n': nat) {
    a + n <= a' || a' + n' <= a
  }

  /** Windows of different (block, repetition, stream) triples do not overlap. */
  lemma WindowsApart(blocks: seq<ReplayBlock>, streams: nat, k: nat, r: nat, s: nat, k': nat, r': nat, s': nat)
    requires k < |blocks| && r < blocks[k].repetitions && s < streams
    requires k' < |blocks| && r' < blocks[k'].repetitions && s' < streams
    requires WellFormed(blocks[k], streams) && WellFormed(blocks[k'], streams)
    requires (k, r, s) != (k', r', s')
    ensures Apart(WindowAt(blocks, streams, k, r, s), blocks[k].numSamples,
                  WindowAt(blocks, streams, k', r', s'), blocks[k'].numSamples)
  {
    if k == k' && s == s' {
      var period := blocks[k].repetitionPeriod;
      var lo, hi := if r < r' then r else r', if r < r' then r' else r;
      MulMonotone(period, lo + 1, hi);
      assert period * (lo + 1) == lo * period + period;
    } else {
      WindowInsideRegion(blocks, streams, k, r, s);
      WindowInsideRegion(blocks, streams, k', r', s');
      if k < k' || (k == k' && s < s') {
        RegionsDisjoint(blocks, streams, k, s, k', s');
      } else {
        RegionsDisjoint(blocks, streams, k', s', k, s);
      }
    }
  }

  /** Replay requests of different numbers, or on different streams, read disjoint samples. */
  lemma RequestsApart(blocks: seq<ReplayBlock>, streams: nat, n: nat, s: nat, n': nat, s': nat)
    requires n < TotalReplays(blocks) && s < streams && n' < TotalReplays(blocks) && s' < streams
    requires forall k | 0 <= k < |blocks| :: WellFormed(blocks[k], streams) && blocks[k].repetitions >= 1
    requires (n, s) != (n', s')
    ensures Apart(WindowStart(blocks, streams, n, s), blocks[BlockOf(blocks, |blocks|, n)].numSamples,
                  WindowStart(blocks, streams, n', s'), blocks[BlockOf(blocks, |blocks|, n')].numSamples)
  {
    WindowsApart(blocks, streams, BlockOf(blocks, |blocks|, n), RepetitionOf(blocks, n), s,
                 BlockOf(blocks, |blocks|, n'), RepetitionOf(blocks, n'), s');
  }
}
