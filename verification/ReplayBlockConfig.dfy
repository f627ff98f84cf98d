/** The replay memory split between transmission and reception, and the device commands that
    record and play its blocks (`ReplayBlockConfig` in uhd_wrapper/lib/replay_config.cpp). */
module ReplayBlockConfiguration {
  import opened Outcomes
  import opened Samples
  import opened BlockLayout
  import opened BlockOffsetTracking
  import opened ReplayDevice

  function TxBufferSize(memSize: nat): nat {
    memSize / 4
  }

  function RxBufferSize(memSize: nat): nat {
    memSize / 4 * 3
  }

  function RxBufferOffset(memSize: nat): nat {
    TxBufferSize(memSize)
  }

  /** The two buffers do not overlap and fit the memory, whatever its size; what they leave unused
      is the remainder of dividing it by four. */
  lemma BuffersSplitMemory(memSize: nat)
    ensures TxBufferSize(memSize) == RxBufferOffset(memSize)
    ensures RxBufferOffset(memSize) + RxBufferSize(memSize) == memSize - memSize % 4
  {
  }

  /** The first n input ports record the regions of the newest block, one stream each. */
  ghost predicate Armed(d: Device, n: nat, base: nat, blocks: seq<ReplayBlock>, streams: nat) {
    && n <= |d.rec| && blocks != []
    && forall p | 0 <= p < n ::
         && d.rec[p].offset == base + SAMPLE_SIZE * RegionStart(blocks, streams, |blocks| - 1, p)
         && d.rec[p].size == SAMPLE_SIZE * blocks[|blocks| - 1].TotalSamples()
         && d.rec[p].fullness <= d.rec[p].size
  }

  ghost predicate AllEmpty(d: Device) {
    forall p | 0 <= p < |d.rec| :: d.rec[p].fullness == 0
  }

  /** The bytes of the newest block. */
  ghost function NewestLo(base: nat, blocks: seq<ReplayBlock>, streams: nat): nat
    requires blocks != []
  {
    base + SAMPLE_SIZE * SamplesBefore(blocks, streams, |blocks| - 1)
  }

  ghost function NewestHi(base: nat, blocks: seq<ReplayBlock>, streams: nat): nat {
    base + SAMPLE_SIZE * SamplesBefore(blocks, streams, |blocks|)
  }

  /** Memory changed at most where the newest block lies; what is played is as before. */
  ghost predicate NewestOnly(d: Device, d': Device, base: nat, blocks: seq<ReplayBlock>, streams: nat)
    requires blocks != []
  {
    && AgreeOutside(d.mem, d'.mem, NewestLo(base, blocks, streams), NewestHi(base, blocks, streams))
    && d'.play == d.play && |d'.rec| == |d.rec|
  }

  lemma ArmedWithin(d: Device, n: nat, base: nat, blocks: seq<ReplayBlock>, streams: nat, p: nat)
    requires Armed(d, n, base, blocks, streams) && p < n <= streams
    ensures d.RecordsWithin(p, NewestLo(base, blocks, streams), NewestHi(base, blocks, streams))
  {
    RegionInBlock(blocks, streams, |blocks| - 1, p);
  }

  /** Stray samples at an armed port: they stay in its window. */
  lemma StraysKeepArmed(d: Device, n: nat, base: nat, blocks: seq<ReplayBlock>, streams: nat,
                        p: nat, strays: seq<Sample>)
    requires Armed(d, n, base, blocks, streams) && p < n <= streams
    ensures Armed(d.DeliverAll(p, strays), n, base, blocks, streams)
    ensures NewestOnly(d, d.DeliverAll(p, strays), base, blocks, streams)
  {
    ArmedWithin(d, n, base, blocks, streams, p);
    DeliverAllFrame(d, p, strays, NewestLo(base, blocks, streams), NewestHi(base, blocks, streams));
  }

  /** A block has been reserved and its ports record; unless refused, no port holds anything yet. */
  ghost predicate Recording(d: Device, d': Device, v: TrackerView, base: nat, r: Outcome) {
    && (r.Pass? || r == Fail(CannotClearBuffer))
    && Armed(d', v.streams, base, v.blocks, v.streams)
    && NewestOnly(d, d', base, v.blocks, v.streams)
    && (r.Pass? ==> AllEmpty(d'))
  }

  /** Samples that stray in although nothing has been asked for: those at (0, p) after port p has been
      told to record, those at (t, p) after restart t of port p. */
  type Strays = (nat, nat) -> seq<Sample>

  ghost predicate Calm(strays: Strays, t: nat, streams: nat) {
    forall p | 0 <= p < streams :: strays(t, p) == []
  }

  /** Samples stray in after both restarts that a look follows. */
  ghost predicate Noisy(strays: Strays, streams: nat) {
    !Calm(strays, 1, streams) && !Calm(strays, 2, streams)
  }

  /** The device after restart t of its first n ports, of which the first `streams` are wired. */
  ghost function RestartedWith(d: Device, n: nat, streams: nat, strays: Strays, t: nat): (d': Device)
    requires n <= |d.rec|
    ensures |d'.rec| == |d.rec|
  {
    if n == 0 then d
    else
      var d1 := RestartedWith(d, n - 1, streams, strays, t).RecordRestart(n - 1);
      if n - 1 < streams then d1.DeliverAll(n - 1, strays(t, n - 1)) else d1
  }

  ghost predicate IsRestarted(d: Device, d': Device, streams: nat, strays: Strays, t: nat) {
    d' == RestartedWith(d, |d.rec|, streams, strays, t)
  }

  /** All looks so far, the first at d0, have found a port that is not empty; each has been followed
      by a restart, the last of which has left d. */
  ghost predicate LookedInVain(looks: seq<Device>, d0: Device, d: Device, streams: nat, strays: Strays) {
    && (if looks == [] then d else looks[0]) == d0
    && (forall k | 0 <= k < |looks| :: !AllEmpty(looks[k]))
    && (forall k | 0 < k < |looks| :: IsRestarted(looks[k - 1], looks[k], streams, strays, k))
    && (looks != [] ==> IsRestarted(looks[|looks| - 1], d, streams, strays, |looks|))
    && (forall k | 0 < k < |looks| :: !Calm(strays, k, streams))
  }

  lemma VainLook(looks: seq<Device>, d0: Device, d: Device, d': Device, streams: nat, strays: Strays)
    requires LookedInVain(looks, d0, d, streams, strays) && !AllEmpty(d)
    requires IsRestarted(d, d', streams, strays, |looks| + 1)
    ensures LookedInVain(looks + [d], d0, d', streams, strays)
  {
    var t := |looks|;
    if t > 0 && Calm(strays, t, streams) {
      CalmRestartEmpties(looks[t - 1], |looks[t - 1].rec|, streams, strays, t);
    }
  }

  /** When nothing strays in, a restart leaves all ports empty. */
  lemma {:induction false} CalmRestartEmpties(d: Device, n: nat, streams: nat, strays: Strays, t: nat)
    requires n <= |d.rec| && Calm(strays, t, streams)
    ensures forall p | 0 <= p < n :: RestartedWith(d, n, streams, strays, t).rec[p].fullness == 0
  {
    if n > 0 {
      CalmRestartEmpties(d, n - 1, streams, strays, t);
    }
  }

  /** The device after a restart of its first n ports. */
  ghost function Restarted(d: Device, n: nat): (d': Device)
    requires n <= |d.rec|
    ensures |d'.rec| == |d.rec|
    ensures forall p | 0 <= p < |d.rec| :: d'.rec[p] == if p < n then d.rec[p].(fullness := 0) else d.rec[p]
  {
    if n == 0 then d else Restarted(d, n - 1).RecordRestart(n - 1)
  }

  /** Samples that stray in after each of the first two restarts make all three looks find a port
      that is not empty. The third restart leaves all ports empty, and yet there is no fourth look,
      so that recording is refused. */
  lemma RefusedAlthoughEmpty(d: Device, p: nat, x: Sample)
    requires p < |d.rec| && d.rec[p].size >= SAMPLE_SIZE && d.rec[p].offset + d.rec[p].size <= |d.mem|
    requires d.rec[p].fullness > 0
    ensures var d1 := Restarted(d, |d.rec|).Deliver(p, x);
            var d2 := Restarted(d1, |d1.rec|).Deliver(p, x);
            !AllEmpty(d) && !AllEmpty(d1) && !AllEmpty(d2) && AllEmpty(Restarted(d2, |d2.rec|))
  {
    StraysAfterRestart(d, p, x);
    StraysAfterRestart(Restarted(d, |d.rec|).Deliver(p, x), p, x);
  }

  lemma StraysAfterRestart(d: Device, p: nat, x: Sample)
    requires p < |d.rec| && d.rec[p].size >= SAMPLE_SIZE && d.rec[p].offset + d.rec[p].size <= |d.mem|
    ensures AllEmpty(Restarted(d, |d.rec|))
    ensures var d' := Restarted(d, |d.rec|).Deliver(p, x);
            && |d'.rec| == |d.rec| && |d'.mem| == |d.mem| && d'.rec[p].fullness > 0
            && d'.rec[p].size == d.rec[p].size && d'.rec[p].offset == d.rec[p].offset
  {
    RestartKeepsMemory(d, |d.rec|);
  }

  lemma {:induction false} RestartKeepsMemory(d: Device, n: nat)
    requires n <= |d.rec|
    ensures Restarted(d, n).mem == d.mem
  {
    if n > 0 {
      RestartKeepsMemory(d, n - 1);
    }
  }

  /** The first n output ports play the windows of the request answered last. */
  ghost predicate Cued(d: Device, n: nat, base: nat, v: TrackerView, numSamples: nat) {
    && n <= |d.play| && 0 < v.replays <= TotalReplays(v.blocks)
    && forall p | 0 <= p < n ::
         d.play[p] == PlayPort(base + SAMPLE_SIZE * WindowStart(v.blocks, v.streams, v.replays - 1, p),
                               SAMPLE_SIZE * numSamples)
  }

  /** Nothing but play windows of the first n ports differs. */
  ghost predicate OnlyPlays(d: Device, d': Device, n: nat) {
    && d'.mem == d.mem && d'.rec == d.rec && |d'.play| == |d.play|
    && forall p | n <= p < |d.play| :: d'.play[p] == d.play[p]
  }

  lemma CueOneMore(d: Device, s: nat, base: nat, v: TrackerView, numSamples: nat)
    requires Cued(d, s, base, v, numSamples) && s < |d.play|
    ensures Cued(d.ConfigPlay(base + SAMPLE_SIZE * WindowStart(v.blocks, v.streams, v.replays - 1, s),
                              numSamples * SAMPLE_SIZE, s), s + 1, base, v, numSamples)
  {
  }

  datatype ReplayView = ReplayView(tx: TrackerView, rx: TrackerView, device: Device)

  class ReplayBlockConfig {
    const hw: ReplayHardware
    const memSize: nat
    const txBlocks: BlockOffsetTracker
    const rxBlocks: BlockOffsetTracker
    var numTxStreams: nat
    var numRxStreams: nat

    ghost const Repr: set<object>

    ghost predicate Valid()
      reads this, Repr
    {
      && Repr == {this, hw, txBlocks, rxBlocks} && txBlocks != rxBlocks
      && txBlocks.Valid() && rxBlocks.Valid()
      && txBlocks.memSize == TxBufferSize(memSize) && rxBlocks.memSize == RxBufferSize(memSize)
      && txBlocks.numStreams == numTxStreams && rxBlocks.numStreams == numRxStreams
      && |hw.device.mem| == memSize
      && numTxStreams <= |hw.device.rec| && numRxStreams <= |hw.device.rec|
      && numTxStreams <= |hw.device.play| && numRxStreams <= |hw.device.play|
    }

    ghost function View(): ReplayView
      reads this, hw, txBlocks, rxBlocks
    {
      ReplayView(txBlocks.View(), rxBlocks.View(), hw.device)
    }

    constructor (hw: ReplayHardware)
      ensures Valid() && fresh(Repr - {hw}) && this.hw == hw && memSize == |hw.device.mem|
      ensures View() == ReplayView(TrackerView(TxBufferSize(memSize), 0, [], 0, None),
                                   TrackerView(RxBufferSize(memSize), 0, [], 0, None), hw.device)
    {
      var tx := new BlockOffsetTracker(TxBufferSize(|hw.device.mem|));
      var rx := new BlockOffsetTracker(RxBufferSize(|hw.device.mem|));
      this.hw, memSize := hw, |hw.device.mem|;
      txBlocks, rxBlocks := tx, rx;
      numTxStreams, numRxStreams := 0, 0;
      Repr := {this, hw, tx, rx};
    }

    /** The hardware has at least as many ports as there are streams. */
    method SetStreamCount(numTx: nat, numRx: nat)
      requires Valid()
      requires numTx <= |hw.device.rec| && numRx <= |hw.device.rec|
      requires numTx <= |hw.device.play| && numRx <= |hw.device.play|
      modifies this, txBlocks, rxBlocks
      ensures Valid() && numTxStreams == numTx && numRxStreams == numRx
      ensures View() == old(View()).(tx := old(View()).tx.(streams := numTx), rx := old(View()).rx.(streams := numRx))
    {
      txBlocks.SetStreamCount(numTx);
      rxBlocks.SetStreamCount(numRx);
      numTxStreams, numRxStreams := numTx, numRx;
    }

    method Reset()
      requires Valid()
      modifies txBlocks, rxBlocks
      ensures Valid()
      ensures View() == old(View()).(tx := TrackerView(txBlocks.memSize, numTxStreams, [], 0, None),
                                     rx := TrackerView(rxBlocks.memSize, numRxStreams, [], 0, None))
    {
      txBlocks.Reset();
      rxBlocks.Reset();
    }

    /** One record command per stream for the newest block of a tracker. Stray samples may
        arrive as soon as a port records. */
    method RecordPorts(tracker: BlockOffsetTracker, base: nat, numBytes: nat, streams: nat, strays: Strays)
      requires Valid() && tracker in {txBlocks, rxBlocks} && streams == tracker.numStreams
      requires tracker.replayBlocks != []
      requires numBytes == SAMPLE_SIZE * tracker.replayBlocks[|tracker.replayBlocks| - 1].TotalSamples()
      modifies hw
      ensures Valid()
      ensures Armed(hw.device, streams, base, tracker.replayBlocks, streams)
      ensures NewestOnly(old(hw.device), hw.device, base, tracker.replayBlocks, streams)
    {
      var s := 0;
      while s < streams
        invariant 0 <= s <= streams && Valid()
        invariant Armed(hw.device, s, base, tracker.replayBlocks, streams)
        invariant NewestOnly(old(hw.device), hw.device, base, tracker.replayBlocks, streams)
      {
        var off := tracker.RecordOffset(s);
        hw.device := hw.device.Record(base + off.value, numBytes, s);
        StraysKeepArmed(hw.device, s + 1, base, tracker.replayBlocks, streams, s, strays(0, s));
        hw.device := hw.device.DeliverAll(s, strays(0, s));
        s := s + 1;
      }
    }

    /** Empties the recordings begun so far; looks at most three times, and refuses exactly when
        no look found all ports empty. A restart after the third look is not looked at. Only the
        first `streams` ports are wired to a source, so only they can receive stray samples. */
    method ClearRecordingBuffer(base: nat, ghost blocks: seq<ReplayBlock>, streams: nat, strays: Strays)
      returns (r: Outcome, ghost looks: seq<Device>)
      requires Valid()
      requires Armed(hw.device, streams, base, blocks, streams)
      modifies hw
      ensures Valid()
      ensures Armed(hw.device, streams, base, blocks, streams)
      ensures NewestOnly(old(hw.device), hw.device, base, blocks, streams)
      ensures 1 <= |looks| <= 3 && looks[0] == old(hw.device)
      ensures forall k | 0 <= k < |looks| - 1 :: !AllEmpty(looks[k])
      ensures r.Pass? ==> AllEmpty(hw.device) && looks[|looks| - 1] == hw.device
      ensures r.Fail? ==> r == Fail(CannotClearBuffer) && |looks| == 3 && !AllEmpty(looks[2])
      ensures forall k | 0 < k < |looks| :: IsRestarted(looks[k - 1], looks[k], streams, strays, k)
      ensures r.Fail? ==> Noisy(strays, streams)
    {
      var numPorts := |hw.device.rec|;
      looks := [];
      for t := 0 to 3
        invariant Valid() && |hw.device.rec| == numPorts
        invariant Armed(hw.device, streams, base, blocks, streams)
        invariant NewestOnly(old(hw.device), hw.device, base, blocks, streams)
        invariant |looks| == t && LookedInVain(looks, old(hw.device), hw.device, streams, strays)
      {
        ghost var before := looks;
        looks := looks + [hw.device];
        var needClear := NeedClear();
        if !needClear {
          return Pass, looks;
        }
        RestartPorts(base, blocks, streams, strays, t + 1);
        VainLook(before, old(hw.device), looks[t], hw.device, streams, strays);
      }
      r := Fail(CannotClearBuffer);
    }

    method NeedClear() returns (needClear: bool)
      ensures needClear <==> !AllEmpty(hw.device)
    {
      needClear := false;
      for c := 0 to |hw.device.rec|
        invariant needClear <==> exists p | 0 <= p < c :: hw.device.rec[p].fullness != 0
      {
        needClear := needClear || hw.device.rec[c].fullness > 0;
      }
    }

    method RestartPorts(base: nat, ghost blocks: seq<ReplayBlock>, streams: nat, strays: Strays, t: nat)
      requires Valid()
      requires Armed(hw.device, streams, base, blocks, streams)
      modifies hw
      ensures Valid()
      ensures Armed(hw.device, streams, base, blocks, streams)
      ensures NewestOnly(old(hw.device), hw.device, base, blocks, streams)
      ensures IsRestarted(old(hw.device), hw.device, streams, strays, t)
    {
      var numPorts := |hw.device.rec|;
      for c := 0 to numPorts
        invariant hw.device == RestartedWith(old(hw.device), c, streams, strays, t)
        invariant Valid() && |hw.device.rec| == numPorts
        invariant Armed(hw.device, streams, base, blocks, streams)
        invariant NewestOnly(old(hw.device), hw.device, base, blocks, streams)
      {
        hw.device := hw.device.RecordRestart(c);
        if c < streams {
          StraysKeepArmed(hw.device, streams, base, blocks, streams, c, strays(t, c));
          hw.device := hw.device.DeliverAll(c, strays(t, c));
        }
      }
    }

    /** Reserve memory on every TX stream for a signal and record into it. */
    method ConfigUpload(numSamples: nat, strays: Strays) returns (r: Outcome)
      requires Valid()
      modifies txBlocks, hw
      ensures Valid()
      ensures View().tx == old(View()).tx.AfterRecord(BlockFor(numSamples, 1, 0)) && View().rx == old(View()).rx
      ensures old(View()).tx.RecordOutcome(BlockFor(numSamples, 1, 0)).Fail? ==>
                r == old(View()).tx.RecordOutcome(BlockFor(numSamples, 1, 0)) && hw.device == old(hw.device)
      ensures old(View()).tx.RecordOutcome(BlockFor(numSamples, 1, 0)).Pass? ==>
                Recording(old(hw.device), View().device, View().tx, 0, r)
      ensures r == Fail(CannotClearBuffer) ==> Noisy(strays, numTxStreams)
    {
      r := txBlocks.RecordNewBlock(numSamples, 1, 0);
      if r.Pass? {
        var numBytes := numSamples * SAMPLE_SIZE;
        RecordPorts(txBlocks, 0, numBytes, numTxStreams, strays);
        ghost var looks;
        r, looks := ClearRecordingBuffer(0, txBlocks.replayBlocks, numTxStreams, strays);
      }
    }

    /** Reserve memory on every RX stream for all repetitions of a capture and record into it. */
    method ConfigReceive(numSamples: nat, numRepetitions: nat, repetitionPeriod: nat, strays: Strays)
      returns (r: Outcome)
      requires Valid()
      modifies rxBlocks, hw
      ensures Valid()
      ensures var block := BlockFor(numSamples, numRepetitions, repetitionPeriod);
              && View().rx == old(View()).rx.AfterRecord(block) && View().tx == old(View()).tx
              && (old(View()).rx.RecordOutcome(block).Fail? ==>
                    r == old(View()).rx.RecordOutcome(block) && hw.device == old(hw.device))
              && (old(View()).rx.RecordOutcome(block).Pass? ==>
                    Recording(old(hw.device), View().device, View().rx, RxBufferOffset(memSize), r))
      ensures r == Fail(CannotClearBuffer) ==> Noisy(strays, numRxStreams)
    {
      var period := if repetitionPeriod == 0 then numSamples else repetitionPeriod;
      r := rxBlocks.RecordNewBlock(numSamples, numRepetitions, period);
      if r.Pass? {
        var numBytes := numRepetitions * period * SAMPLE_SIZE;
        RecordPorts(rxBlocks, RxBufferOffset(memSize), numBytes, numRxStreams, strays);
        ghost var looks;
        r, looks := ClearRecordingBuffer(RxBufferOffset(memSize), rxBlocks.replayBlocks, numRxStreams, strays);
      }
    }

    /** One play command per stream for the request a tracker has just answered. */
    method PlayPorts(tracker: BlockOffsetTracker, base: nat, numSamples: nat, streams: nat) returns (r: Outcome)
      requires Valid() && tracker in {txBlocks, rxBlocks} && streams == tracker.numStreams
      modifies hw
      ensures Valid()
      ensures OnlyPlays(old(hw.device), hw.device, streams)
      ensures tracker.overrunAt.None? && tracker.replays > 0 ==>
                r.Pass? && Cued(hw.device, streams, base, tracker.View(), numSamples)
    {
      ghost var follows := tracker.overrunAt.None? && tracker.replays > 0;
      if follows {
        CursorAtEnd(tracker.replayBlocks, tracker.currentReplay, tracker.currentRepetition, tracker.replays);
      }
      var s := 0;
      while s < streams
        invariant 0 <= s <= streams && Valid()
        invariant OnlyPlays(old(hw.device), hw.device, streams)
        invariant follows ==> Cued(hw.device, s, base, tracker.View(), numSamples)
      {
        r := PlayPort(tracker, base, numSamples, s);
        if r.Fail? {
          return;
        }
        s := s + 1;
      }
      r := Pass;
    }

    method PlayPort(tracker: BlockOffsetTracker, base: nat, numSamples: nat, s: nat) returns (r: Outcome)
      requires Valid() && tracker in {txBlocks, rxBlocks} && s < tracker.numStreams
      modifies hw
      ensures Valid() && (r.Fail? ==> hw.device == old(hw.device))
      ensures OnlyPlays(old(hw.device), hw.device, s + 1)
      ensures tracker.overrunAt.None? && tracker.replays > 0 ==> r.Pass?
      ensures tracker.overrunAt.None? && Cued(old(hw.device), s, base, tracker.View(), numSamples) ==>
                Cued(hw.device, s + 1, base, tracker.View(), numSamples)
    {
      var off := tracker.ReplayOffset(s);
      if off.Failure? {
        return Fail(off.error);
      }
      if tracker.overrunAt.None? && Cued(hw.device, s, base, tracker.View(), numSamples) {
        CueOneMore(hw.device, s, base, tracker.View(), numSamples);
      }
      hw.device := hw.device.ConfigPlay(base + off.value, numSamples * SAMPLE_SIZE, s);
      r := Pass;
    }

    /** Cue the next uploaded block on every TX stream. */
    method ConfigTransmit(numSamples: nat) returns (r: Outcome)
      requires Valid() && View().tx.Settled()
      modifies txBlocks, hw
      ensures Valid()
      ensures r == old(View()).tx.ReplayOutcome()
      ensures View().tx == old(View()).tx.AfterReplay() && View().rx == old(View()).rx
      ensures hw.device.mem == old(hw.device).mem && hw.device.rec == old(hw.device).rec
      ensures r.Fail? ==> hw.device == old(hw.device)
      ensures |hw.device.play| == |old(hw.device).play|
      ensures r.Pass? ==> Cued(View().device, numTxStreams, 0, View().tx, numSamples)
    {
      r := txBlocks.ReplayNextBlock(numSamples);
      if r.Pass? {
        r := PlayPorts(txBlocks, 0, numSamples, numTxStreams);
      }
    }

    /** Cue the next captured window on every RX stream. */
    method ConfigDownload(numSamples: nat) returns (r: Outcome)
      requires Valid() && View().rx.Settled()
      modifies rxBlocks, hw
      ensures Valid()
      ensures r == old(View()).rx.ReplayOutcome()
      ensures View().rx == old(View()).rx.AfterReplay() && View().tx == old(View()).tx
      ensures hw.device.mem == old(hw.device).mem && hw.device.rec == old(hw.device).rec
      ensures r.Fail? ==> hw.device == old(hw.device)
      ensures |hw.device.play| == |old(hw.device).play|
      ensures r.Pass? ==> Cued(View().device, numRxStreams, RxBufferOffset(memSize), View().rx, numSamples)
    {
      r := rxBlocks.ReplayNextBlock(numSamples);
      if r.Pass? {
        r := PlayPorts(rxBlocks, RxBufferOffset(memSize), numSamples, numRxStreams);
      }
    }
  }
}
