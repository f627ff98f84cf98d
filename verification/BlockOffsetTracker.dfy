/** The allocator of replay memory, with its independent replay cursor
    (`BlockOffsetTracker` in uhd_wrapper/lib/replay_config.cpp). */
module BlockOffsetTracking {
  import opened Outcomes
  import opened Samples
  import opened BlockLayout

  /** What a tracker means: its blocks, and how many replay requests it has answered since the
      last reset. `overrunAt` is the number of blocks present when a request was first refused
      for lack of blocks. The cursor is lost from then on. */
  datatype TrackerView = TrackerView(
    memSize: nat, streams: nat, blocks: seq<ReplayBlock>, replays: nat, overrunAt: Option<nat>)
  {
    function End(): nat {
      SamplesBefore(blocks, streams, |blocks|)
    }

    /** Everything recorded fits the buffer, strictly, and every block is well formed. */
    ghost predicate Sound() {
      SoundBlocks(blocks, streams, memSize)
    }

    function RecordOutcome(block: ReplayBlock): (r: Outcome)
      ensures r.Pass? <==>
        streams > 0 && WellFormed(block, streams) && SAMPLE_SIZE * (End() + block.TotalSamples() * streams) < memSize
      ensures r == Fail(StreamCountNotSet) <==> streams == 0
      ensures r == Fail(PeriodBelowSamples) ==> block.repetitionPeriod < block.numSamples
      ensures r == Fail(MultiStreamRepetitions) ==> block.repetitions > 1 && streams > 1
      ensures r == Fail(BufferFull) ==>
                WellFormed(block, streams) && SAMPLE_SIZE * (End() + block.TotalSamples() * streams) >= memSize
      ensures r.Fail? ==> r.error in {StreamCountNotSet, PeriodBelowSamples, MultiStreamRepetitions, BufferFull}
    {
      if streams == 0 then Fail(StreamCountNotSet)
      else if block.repetitionPeriod < block.numSamples then Fail(PeriodBelowSamples)
      else if block.repetitions > 1 && streams > 1 then Fail(MultiStreamRepetitions)
      else if SAMPLE_SIZE * (End() + block.TotalSamples() * streams) >= memSize then Fail(BufferFull)
      else Pass
    }

    function AfterRecord(block: ReplayBlock): TrackerView {
      if RecordOutcome(block).Pass? then this.(blocks := blocks + [block]) else this
    }

    /** Only meaningful as long as no block is recorded after an overrun. */
    predicate Settled() {
      overrunAt.Some? ==> overrunAt.value == |blocks|
    }

    /** No request has been answered or refused since the last reset. */
    predicate AtStart() {
      replays == 0 && overrunAt.None?
    }

    /** Every request has been answered, and none refused for lack of blocks. */
    predicate Exhausted() {
      replays == TotalReplays(blocks) && overrunAt.None?
    }

    /** How many requests can still be answered. */
    function Unanswered(): nat {
      if overrunAt.Some? || replays > TotalReplays(blocks) then 0 else TotalReplays(blocks) - replays
    }

    function ReplayOutcome(): Outcome {
      if streams == 0 then Fail(StreamCountNotSet)
      else if overrunAt.Some? then Fail(OutOfRange)
      else if replays == TotalReplays(blocks) then Fail(TooManyReplays)
      else Pass
    }

    function AfterReplay(): TrackerView {
      if ReplayOutcome().Pass? then this.(replays := replays + 1)
      else if ReplayOutcome() == Fail(TooManyReplays) then this.(overrunAt := Some(|blocks|))
      else this
    }
  }

  ghost predicate SoundBlocks(blocks: seq<ReplayBlock>, streams: nat, memSize: nat) {
    && (blocks != [] ==> SAMPLE_SIZE * SamplesBefore(blocks, streams, |blocks|) < memSize)
    && forall k | 0 <= k < |blocks| :: WellFormed(blocks[k], streams)
  }

  function BlockFor(numSamples: nat, numRepetitions: nat, repetitionPeriod: nat): ReplayBlock {
    ReplayBlock(numSamples, numRepetitions, if repetitionPeriod == 0 then numSamples else repetitionPeriod)
  }

  lemma AcceptedRecordIsSound(v: TrackerView, block: ReplayBlock)
    requires v.RecordOutcome(block).Pass?
    ensures SAMPLE_SIZE * v.AfterRecord(block).End() < v.memSize
    ensures v.AfterRecord(block).End() == v.End() + block.TotalSamples() * v.streams
    ensures v.Sound() ==> v.AfterRecord(block).Sound()
  {
    SamplesBeforePrefix(v.blocks, [block], v.streams, |v.blocks|);
  }

  /** The tracker after a run of record requests, some of which may be refused. */
  function AfterRecords(v: TrackerView, requests: seq<ReplayBlock>): TrackerView
    decreases |requests|
  {
    if requests == [] then v else AfterRecords(v.AfterRecord(requests[0]), requests[1..])
  }

  /** Over every run of record requests from an empty tracker: what is recorded ends strictly
      below the memory size, every block is well formed, and every sample below the end belongs
      to the region of exactly one block and stream. */
  lemma {:induction false} RecordRunsTile(v: TrackerView, requests: seq<ReplayBlock>)
    requires v.Sound()
    ensures var w := AfterRecords(v, requests);
            && w.Sound() && w.streams == v.streams && w.memSize == v.memSize
            && v.blocks <= w.blocks
            && forall a | 0 <= a < w.End() :: Owned(w.blocks, w.streams, a)
    decreases |requests|
  {
    if requests == [] {
      forall a | 0 <= a < v.End() ensures Owned(v.blocks, v.streams, a) {
        RegionsTile(v.blocks, v.streams, a);
      }
    } else {
      if v.RecordOutcome(requests[0]).Pass? {
        AcceptedRecordIsSound(v, requests[0]);
      }
      RecordRunsTile(v.AfterRecord(requests[0]), requests[1..]);
    }
  }

  /** The two-level cursor (block, repetition) stands at the last of n answered requests. */
  ghost predicate CursorAt(blocks: seq<ReplayBlock>, block: int, repetition: int, n: nat) {
    if n == 0 then block == -1 && repetition == -1
    else
      && 0 <= block < |blocks|
      && 0 <= repetition < blocks[block].Replays()
      && ReplaysBefore(blocks, block) + repetition == n - 1
  }

  lemma CursorKept(blocks: seq<ReplayBlock>, more: seq<ReplayBlock>, block: int, repetition: int, n: nat)
    requires CursorAt(blocks, block, repetition, n)
    ensures CursorAt(blocks + more, block, repetition, n)
  {
    if n > 0 {
      ReplaysBeforePrefix(blocks, more, block);
    }
  }

  /** The cursor is at the end of all blocks exactly when every request has been answered. */
  lemma CursorAtEnd(blocks: seq<ReplayBlock>, block: int, repetition: int, n: nat)
    requires CursorAt(blocks, block, repetition, n) && n > 0
    ensures ReplaysBefore(blocks, block + 1) <= TotalReplays(blocks)
    ensures n <= TotalReplays(blocks)
    ensures block == |blocks| - 1 && repetition == blocks[block].Replays() - 1 <==> n == TotalReplays(blocks)
  {
    assert ReplaysBefore(blocks, block + 1) == ReplaysBefore(blocks, block) + blocks[block].Replays();
    ReplaysBeforeMonotone(blocks, block + 1, |blocks|);
  }

  /** The cursor's block and repetition are those of the request answered last. */
  lemma CursorWindow(blocks: seq<ReplayBlock>, streams: nat, block: int, repetition: int, n: nat, s: nat)
    requires CursorAt(blocks, block, repetition, n) && n > 0
    ensures n <= TotalReplays(blocks)
    ensures WindowStart(blocks, streams, n - 1, s)
            == SamplesBefore(blocks, streams, block) + repetition * blocks[block].repetitionPeriod
               + blocks[block].TotalSamples() * s
  {
    CursorAtEnd(blocks, block, repetition, n);
    WindowUnique(blocks, n - 1, block, repetition);
  }

  class BlockOffsetTracker {
    const memSize: nat
    var numStreams: nat
    var replayBlocks: seq<ReplayBlock>
    var currentRepetition: int
    var currentReplay: int

    ghost var replays: nat            // requests answered since the last reset
    ghost var overrunAt: Option<nat>  // see TrackerView

    ghost predicate Valid()
      reads this
    {
      && -1 <= currentRepetition && -1 <= currentReplay
      && (currentRepetition == -1 <==> currentReplay == -1)
      && (overrunAt.None? ==> CursorAt(replayBlocks, currentReplay, currentRepetition, replays))
      && (overrunAt.Some? ==> overrunAt.value <= currentReplay && overrunAt.value <= |replayBlocks|)
    }

    ghost function View(): TrackerView
      reads this
    {
      TrackerView(memSize, numStreams, replayBlocks, replays, overrunAt)
    }

    constructor (memSize: nat)
      ensures Valid() && View() == TrackerView(memSize, 0, [], 0, None)
    {
      this.memSize := memSize;
      numStreams := 0;
      replayBlocks, currentRepetition, currentReplay := [], -1, -1;
      replays, overrunAt := 0, None;
    }

    method SetStreamCount(streamCount: nat)
      requires Valid()
      modifies this
      ensures Valid() && View() == old(View()).(streams := streamCount)
    {
      numStreams := streamCount;
    }

    method Reset()
      modifies this
      ensures Valid() && View() == TrackerView(memSize, old(numStreams), [], 0, None)
    {
      replayBlocks, currentRepetition, currentReplay := [], -1, -1;
      replays, overrunAt := 0, None;
    }

    method RecordNewBlock(numSamples: nat, numRepetitions: nat, repetitionPeriod: nat) returns (r: Outcome)
      requires Valid()
      modifies this
      ensures Valid()
      ensures var block := BlockFor(numSamples, numRepetitions, repetitionPeriod);
              r == old(View()).RecordOutcome(block) && View() == old(View()).AfterRecord(block)
      ensures old(View()).Sound() ==> View().Sound()
    {
      if numStreams == 0 {
        return Fail(StreamCountNotSet);
      }
      var period := if repetitionPeriod == 0 then numSamples else repetitionPeriod;
      if period < numSamples {
        return Fail(PeriodBelowSamples);
      }
      if numRepetitions > 1 && numStreams > 1 {
        return Fail(MultiStreamRepetitions);
      }
      var block := ReplayBlock(numSamples, numRepetitions, period);
      var end := CurrentRecordBlockEnd();
      if (end + block.TotalSamples() * numStreams) * SAMPLE_SIZE >= memSize {
        return Fail(BufferFull);
      }
      AcceptedRecordIsSound(View(), block);
      if overrunAt.None? {
        CursorKept(replayBlocks, [block], currentReplay, currentRepetition, replays);
      }
      replayBlocks := replayBlocks + [block];
      return Pass;
    }

    /** Answers the next request, and refuses it exactly when all have been answered. */
    method ReplayNextBlock(numSamples: nat) returns (r: Outcome)
      requires Valid()
      modifies this
      ensures Valid()
      ensures old(View()).Settled() ==>
                r == old(View()).ReplayOutcome() && View() == old(View()).AfterReplay()
      ensures overrunAt.None? && r.Pass? ==>
                0 <= currentReplay < |replayBlocks|
                && ReplaysBefore(replayBlocks, currentReplay) + currentRepetition == replays - 1
    {
      if numStreams == 0 {
        return Fail(StreamCountNotSet);
      }
      if overrunAt.None? && replays > 0 {
        CursorAtEnd(replayBlocks, currentReplay, currentRepetition, replays);
      }
      currentRepetition := currentRepetition + 1;
      var repsInCurrentBlock := 0;
      if currentReplay >= 0 {
        if currentReplay >= |replayBlocks| {
          return Fail(OutOfRange);
        }
        repsInCurrentBlock := replayBlocks[currentReplay].repetitions;
      }
      if currentRepetition >= repsInCurrentBlock {
        currentReplay := currentReplay + 1;
        currentRepetition := 0;
      }
      if currentReplay >= |replayBlocks| {
        if overrunAt.None? {
          overrunAt := Some(|replayBlocks|);
        }
        return Fail(TooManyReplays);
      }
      if overrunAt.None? {
        replays := replays + 1;
      }
      return Pass;
    }

    method RecordOffset(streamIdx: nat) returns (r: Result<nat>)
      requires Valid()
      ensures r == if replayBlocks == [] then Failure(RecordNotStarted)
                   else Success(SAMPLE_SIZE * RegionStart(replayBlocks, numStreams, |replayBlocks| - 1, streamIdx))
    {
      if |replayBlocks| == 0 {
        return Failure(RecordNotStarted);
      }
      var start := CurrentRecordBlockStart();
      var length := CurrentRecordBlockLength();
      return Success((start + length * streamIdx) * SAMPLE_SIZE);
    }

    method CurrentRecordBlockStart() returns (off: nat)
      ensures off == if replayBlocks == [] then 0
                     else SamplesBefore(replayBlocks, numStreams, |replayBlocks| - 1)
    {
      if |replayBlocks| == 0 {
        return 0;
      }
      off := 0;
      for i := 0 to |replayBlocks| - 1
        invariant off == SamplesBefore(replayBlocks, numStreams, i)
      {
        off := off + replayBlocks[i].TotalSamples() * numStreams;
      }
    }

    method CurrentRecordBlockEnd() returns (end: nat)
      ensures end == View().End()
    {
      var start := CurrentRecordBlockStart();
      var length := CurrentRecordBlockLength();
      end := start + numStreams * length;
    }

    method CurrentRecordBlockLength() returns (length: nat)
      ensures length == if replayBlocks == [] then 0 else replayBlocks[|replayBlocks| - 1].TotalSamples()
    {
      length := if |replayBlocks| == 0 then 0 else replayBlocks[|replayBlocks| - 1].TotalSamples();
    }

    /** The byte offset of the window of the request answered last. */
    method ReplayOffset(streamIdx: nat) returns (r: Result<nat>)
      requires Valid()
      ensures overrunAt.None? ==>
                && replays <= TotalReplays(replayBlocks)
                && r == if replays == 0 then Failure(ReplayNotStarted)
                        else Success(SAMPLE_SIZE * WindowStart(replayBlocks, numStreams, replays - 1, streamIdx))
      ensures View().Settled() && overrunAt.Some? ==> r == Failure(OutOfRange)
    {
      if currentRepetition == -1 {
        return Failure(ReplayNotStarted);
      }
      if currentReplay >= |replayBlocks| {
        return Failure(OutOfRange);
      }
      var offsetBefore := 0;
      for i := 0 to currentReplay
        invariant offsetBefore == SamplesBefore(replayBlocks, numStreams, i)
      {
        offsetBefore := offsetBefore + replayBlocks[i].TotalSamples() * numStreams;
      }
      var currentBlock := replayBlocks[currentReplay];
      offsetBefore := offsetBefore + currentRepetition * currentBlock.repetitionPeriod;
      if overrunAt.None? {
        CursorWindow(replayBlocks, numStreams, currentReplay, currentRepetition, replays, streamIdx);
      }
      return Success((offsetBefore + currentBlock.TotalSamples() * streamIdx) * SAMPLE_SIZE);
    }
  }
}
