/** Every interleaving of the two threads plays what was uploaded and stores what was captured. */
module StreamingProofs {
  import opened Outcomes
  import opened Samples
  import opened StreamingConfig
  import opened SampleCounts
  import opened BlockLayout
  import opened BlockOffsetTracking
  import opened ReplayDevice
  import opened ReplayBlockConfiguration
  import opened StreamingThreads

  // ---------- TX steps ----------

  lemma {:induction false} OneReplayEach(blocks: seq<ReplayBlock>, k: nat)
    requires k <= |blocks| && forall i | 0 <= i < |blocks| :: blocks[i].repetitions == 1
    ensures ReplaysBefore(blocks, k) == k
  {
    if k > 0 {
      OneReplayEach(blocks, k - 1);
    }
  }

  /** Uploaded blocks have one repetition, so request k is block k. */
  lemma TxWindow(b: Burst, v: TrackerView, k: nat, p: nat)
    requires TxReserved(b, v) && k < |b.txQueue|
    ensures TotalReplays(v.blocks) == |b.txQueue|
    ensures WindowStart(v.blocks, v.streams, k, p) == RegionStart(v.blocks, b.numTx, k, p)
  {
    OneReplayEach(v.blocks, |v.blocks|);
    OneReplayEach(v.blocks, k);
    WindowUnique(v.blocks, k, k, 0);
  }

  /** The region of an uploaded channel lies inside the TX buffer. */
  lemma TxRegionConfined(b: Burst, v: TrackerView, k: nat, p: nat)
    requires TxReserved(b, v) && k < |b.txQueue| && p < b.numTx
    ensures TxAddress(b, v.blocks, k, p) + SAMPLE_SIZE * |b.txQueue[k].samples[p]| < TxBufferSize(b.memSize)
  {
    RegionInBlock(v.blocks, b.numTx, k, p);
    SamplesBeforeMonotone(v.blocks, b.numTx, k + 1, |v.blocks|);
    assert v.blocks[k].TotalSamples() == |b.txQueue[k].samples[0]|;
  }

  /** The transmit thread never runs out of blocks to cue, and cues the one it means to. */
  lemma TxConfigureCues(b: Burst, s: StreamState, s': StreamState)
    requires Inv(b, s) && TxConfigure(b, s, s')
    ensures s.view.tx.ReplayOutcome().Pass?
    ensures forall p | 0 <= p < b.numTx ::
              s'.view.device.play[p] == PlayPort(TxAddress(b, s.view.tx.blocks, s.tx.index, p),
                                                 SAMPLE_SIZE * |b.txQueue[s.tx.index].samples[p]|)
  {
    var k, v := s.tx.index, s.view.tx;
    TxWindow(b, v, k, 0);
    assert s'.view.tx == v.(replays := k + 1);
    forall p | 0 <= p < b.numTx
      ensures s'.view.device.play[p]
              == PlayPort(TxAddress(b, v.blocks, k, p), SAMPLE_SIZE * |b.txQueue[k].samples[p]|)
    {
      assert ValidTx(b.txQueue[k], b.numTx);
      assert |b.txQueue[k].samples[p]| == |b.txQueue[k].samples[0]|;
      TxWindow(b, v, k, p);
    }
  }

  lemma TxTotalIsNat(conf: TxStreamingConfig, streams: nat)
    requires ValidTx(conf, streams)
    ensures |conf.samples| > 0 && TxTotalSamples(conf) >= 0
  {
    MulMonotone(|conf.samples[0]|, 0, conf.numRepetitions);
  }

  lemma NothingPlayed(conf: TxStreamingConfig, n: nat)
    requires ValidTx(conf, n)
    ensures ChannelsPlayed(conf, n, EmptyChannels(n), false)
  {
    TxTotalIsNat(conf, n);
    forall p | 0 <= p < n ensures Played(conf, p, EmptyChannels(n)[p], false) {
    }
  }

  lemma TxProgressBegins(b: Burst, th: TxThread)
    requires TxProgress(b, th) && !th.active && th.index < |b.txQueue|
    requires ValidTx(b.txQueue[th.index], b.numTx)
    ensures TxProgress(b, th.(active := true, played := th.played + [EmptyChannels(b.numTx)]))
  {
    NothingPlayed(b.txQueue[th.index], b.numTx);
    var played' := th.played + [EmptyChannels(b.numTx)];
    forall k | 0 <= k < |played'| ensures ChannelsPlayed(b.txQueue[k], b.numTx, played'[k], k < th.index) {
      if k < th.index {
        assert ChannelsPlayed(b.txQueue[k], b.numTx, th.played[k], k < th.index);
      }
    }
  }

  lemma TxMemoryKept(b: Burst, v: TrackerView, replays: nat, mem: seq<Byte>)
    requires TxMemory(b, v, mem)
    ensures TxMemory(b, v.(replays := replays), mem)
  {
  }

  lemma TxConfigureKeepsInv(b: Burst, s: StreamState, s': StreamState)
    requires Inv(b, s) && TxConfigure(b, s, s')
    ensures Inv(b, s') && s'.tx.error.None?
  {
    TxConfigureCues(b, s, s');
    assert ValidTx(b.txQueue[s.tx.index], b.numTx);
    TxProgressBegins(b, s.tx);
    TxMemoryKept(b, s.view.tx, s'.view.tx.replays, s.view.device.mem);
  }

  /** The sample the hardware plays next is the one whose turn it is. */
  lemma TxNextSample(b: Burst, s: StreamState, p: nat)
    requires Inv(b, s) && TxMayPlay(b, s, p)
    ensures p < |b.txQueue[s.tx.index].samples| && |b.txQueue[s.tx.index].samples[p]| > 0
    ensures var signal, n := b.txQueue[s.tx.index].samples[p], |s.tx.played[s.tx.index][p]|;
            s.view.device.PlayedSample(p, n) == signal[n % |signal|]
  {
    var d, signal := s.view.device, b.txQueue[s.tx.index].samples[p];
    assert ValidTx(b.txQueue[s.tx.index], b.numTx);
    assert Holds(d.mem, d.play[p].offset, signal);
    PlaysCyclic(d, p, signal, |s.tx.played[s.tx.index][p]|);
  }

  lemma PlayedGrows(conf: TxStreamingConfig, p: nat, xs: seq<Sample>)
    requires p < |conf.samples| && |conf.samples[p]| > 0
    requires Played(conf, p, xs, false) && |xs| < TxTotalSamples(conf)
    ensures Played(conf, p, xs + [conf.samples[p][|xs| % |conf.samples[p]|]], false)
  {
    var signal := conf.samples[p];
    var xs' := xs + [signal[|xs| % |signal|]];
    assert Cyclic(signal, |xs'|) == xs';
  }

  lemma TxPlayKeepsInv(b: Burst, s: StreamState, s': StreamState, p: nat)
    requires Inv(b, s) && TxPlay(b, s, s', p)
    ensures Inv(b, s')
  {
    TxNextSample(b, s, p);
    TxProgressPlays(b, s.tx, p, s'.tx.played[s.tx.index][p]);
  }

  lemma TxProgressPlays(b: Burst, th: TxThread, p: nat, xs': seq<Sample>)
    requires TxProgress(b, th) && th.active && p < b.numTx && |b.txQueue[th.index].samples[p]| > 0
    requires var conf, xs := b.txQueue[th.index], th.played[th.index][p];
             |xs| < TxTotalSamples(conf) && xs' == xs + [conf.samples[p][|xs| % |conf.samples[p]|]]
    ensures TxProgress(b, th.(played := th.played[th.index := th.played[th.index][p := xs']]))
  {
    var i, conf := th.index, b.txQueue[th.index];
    var channels' := th.played[i][p := xs'];
    assert ChannelsPlayed(conf, b.numTx, th.played[i], false);
    PlayedGrows(conf, p, th.played[i][p]);
    forall q | 0 <= q < b.numTx ensures Played(conf, q, channels'[q], false) {
      assert q != p ==> channels'[q] == th.played[i][q];
    }
    var played' := th.played[i := channels'];
    forall k | 0 <= k < |played'| ensures ChannelsPlayed(b.txQueue[k], b.numTx, played'[k], k < i) {
      assert k != i ==> played'[k] == th.played[k];
      assert ChannelsPlayed(b.txQueue[k], b.numTx, th.played[k], k < i);
    }
  }

  lemma TxFinishKeepsInv(b: Burst, s: StreamState, s': StreamState)
    requires Inv(b, s) && TxFinish(b, s, s')
    ensures Inv(b, s')
  {
    TxProgressEnds(b, s.tx);
  }

  lemma TxProgressEnds(b: Burst, th: TxThread)
    requires TxProgress(b, th) && th.active
    requires forall p | 0 <= p < |th.played[th.index]| ::
               |th.played[th.index][p]| == TxTotalSamples(b.txQueue[th.index])
    ensures TxProgress(b, th.(active := false, index := th.index + 1))
  {
    var i, conf := th.index, b.txQueue[th.index];
    assert ChannelsPlayed(conf, b.numTx, th.played[i], false);
    forall p | 0 <= p < b.numTx ensures Played(conf, p, th.played[i][p], true) {
      assert Played(conf, p, th.played[i][p], false);
    }
    forall k | 0 <= k < |th.played| ensures ChannelsPlayed(b.txQueue[k], b.numTx, th.played[k], k < i + 1) {
      assert ChannelsPlayed(b.txQueue[k], b.numTx, th.played[k], k < i);
    }
  }

  /** Changes of memory at or above the TX buffer's end do not concern the transmit thread. */
  lemma TxInvFrame(b: Burst, v: TrackerView, mem: seq<Byte>, mem': seq<Byte>, play: seq<PlayPort>,
                   th: TxThread, lo: nat, hi: nat)
    requires TxInv(b, v, mem, play, th)
    requires AgreeOutside(mem, mem', lo, hi) && TxBufferSize(b.memSize) <= lo
    ensures TxInv(b, v, mem', play, th)
  {
    forall k, p | 0 <= k < |b.txQueue| && 0 <= p < b.numTx
      ensures Holds(mem', TxAddress(b, v.blocks, k, p), b.txQueue[k].samples[p])
    {
      TxRegionConfined(b, v, k, p);
      HoldsFrame(mem, mem', lo, hi, TxAddress(b, v.blocks, k, p), b.txQueue[k].samples[p]);
    }
  }

  // ---------- RX steps ----------

  /** The region of a capture lies inside the RX buffer, hence inside memory. */
  lemma RxRegionConfined(b: Burst, v: TrackerView, i: nat, p: nat)
    requires RxReserved(b, v) && i < |v.blocks| && p < b.numRx
    ensures RxBufferOffset(b.memSize) <= RxAddress(b, v.blocks, i, p)
    ensures RxAddress(b, v.blocks, i, p) + SAMPLE_SIZE * v.blocks[i].TotalSamples()
              < RxBufferOffset(b.memSize) + RxBufferSize(b.memSize) <= b.memSize
  {
    RegionInBlock(v.blocks, b.numRx, i, p);
    SamplesBeforeMonotone(v.blocks, b.numRx, i + 1, |v.blocks|);
    BuffersSplitMemory(b.memSize);
  }

  lemma RxReservedGrows(b: Burst, v: TrackerView, i: nat)
    requires RxReserved(b, v) && i == |v.blocks| < |b.rxQueue|
    requires v.RecordOutcome(RxBlock(b.rxQueue[i])).Pass?
    ensures RxReserved(b, v.AfterRecord(RxBlock(b.rxQueue[i])))
  {
    var block := RxBlock(b.rxQueue[i]);
    AcceptedRecordIsSound(v, block);
    assert RxBlocks(b.rxQueue[..i + 1]) == RxBlocks(b.rxQueue[..i]) + [block];
  }

  /** Earlier captures survive changes confined to the newest block. */
  lemma CapturesSurvive(b: Burst, v: TrackerView, mem: seq<Byte>, mem': seq<Byte>, i: nat, p: nat, xs: seq<Sample>)
    requires RxReserved(b, v) && i < |v.blocks| - 1 && p < b.numRx
    requires |xs| <= v.blocks[i].TotalSamples() && Holds(mem, RxAddress(b, v.blocks, i, p), xs)
    requires AgreeOutside(mem, mem', NewestLo(RxBufferOffset(b.memSize), v.blocks, b.numRx),
                          NewestHi(RxBufferOffset(b.memSize), v.blocks, b.numRx))
    ensures Holds(mem', RxAddress(b, v.blocks, i, p), xs)
  {
    var base := RxBufferOffset(b.memSize);
    RegionInBlock(v.blocks, b.numRx, i, p);
    SamplesBeforeMonotone(v.blocks, b.numRx, i + 1, |v.blocks| - 1);
    HoldsFrame(mem, mem', NewestLo(base, v.blocks, b.numRx), NewestHi(base, v.blocks, b.numRx),
               RxAddress(b, v.blocks, i, p), xs);
  }

  lemma RxMemoryReserved(b: Burst, v: TrackerView, v': TrackerView, mem: seq<Byte>, mem': seq<Byte>, th: RxThread)
    requires RxMemory(b, v, mem, th) && |th.captured| == |v.blocks|
    requires RxReserved(b, v) && RxReserved(b, v') && |v.blocks| < |b.rxQueue|
    requires v'.blocks == v.blocks + [RxBlock(b.rxQueue[|v.blocks|])]
    requires AgreeOutside(mem, mem', NewestLo(RxBufferOffset(b.memSize), v'.blocks, b.numRx),
                          NewestHi(RxBufferOffset(b.memSize), v'.blocks, b.numRx))
    ensures RxMemory(b, v', mem', th)
  {
    forall j, p | 0 <= j < |th.captured| && 0 <= p < b.numRx
      ensures Captured(mem', RxAddress(b, v'.blocks, j, p), v'.blocks[j].TotalSamples(),
                       th.captured[j][p], j < th.index)
    {
      RegionPrefix(v.blocks, [RxBlock(b.rxQueue[|v.blocks|])], b.numRx, j, p);
      assert Captured(mem, RxAddress(b, v.blocks, j, p), v.blocks[j].TotalSamples(), th.captured[j][p], j < th.index);
      CapturesSurvive(b, v', mem, mem', j, p, th.captured[j][p]);
    }
  }

  lemma RxConfigureKeepsInv(b: Burst, s: StreamState, s': StreamState, r: Outcome)
    requires Inv(b, s) && RxConfigure(b, s, s', r)
    ensures Inv(b, s')
  {
    var i := s.rx.index;
    if s.view.rx.RecordOutcome(RxBlock(b.rxQueue[i])).Pass? {
      var v, v', d, d' := s.view.rx, s'.view.rx, s.view.device, s'.view.device;
      RxReservedGrows(b, v, i);
      TxInvFrame(b, s.view.tx, d.mem, d'.mem, d.play, s.tx,
                 NewestLo(RxBufferOffset(b.memSize), v'.blocks, b.numRx),
                 NewestHi(RxBufferOffset(b.memSize), v'.blocks, b.numRx));
      RxMemoryReserved(b, v, v', d.mem, d'.mem, s.rx);
      if r.Pass? && b.rxQueue[i].TotalWordAlignedSamples().Success? {
        RxMemoryBegins(b, v, v', d'.mem, s.rx);
        RxArmedBegins(b, v', d', s.rx);
      }
    }
  }

  /** A new capture begins with nothing. */
  lemma RxMemoryBegins(b: Burst, v: TrackerView, v': TrackerView, mem': seq<Byte>, th: RxThread)
    requires RxReserved(b, v') && |th.captured| == th.index == |v.blocks| && |v'.blocks| == th.index + 1
    requires |mem'| == b.memSize && RxMemory(b, v', mem', th)
    ensures RxMemory(b, v', mem', th.(active := true, captured := th.captured + [EmptyChannels(b.numRx)]))
  {
    var th' := th.(active := true, captured := th.captured + [EmptyChannels(b.numRx)]);
    forall j, p | 0 <= j < |th'.captured| && 0 <= p < b.numRx
      ensures Captured(mem', RxAddress(b, v'.blocks, j, p), v'.blocks[j].TotalSamples(),
                       th'.captured[j][p], j < th'.index)
    {
      if j < th.index {
        assert th'.captured[j] == th.captured[j];
      } else {
        RxRegionConfined(b, v', j, p);
      }
    }
  }

  /** The ports that record the new block are empty and ready. */
  lemma RxArmedBegins(b: Burst, v': TrackerView, d': Device, th: RxThread)
    requires th.index < |b.rxQueue| && |v'.blocks| == th.index + 1 && |th.captured| == th.index
    requires v'.streams == b.numRx
    requires Armed(d', b.numRx, RxBufferOffset(b.memSize), v'.blocks, b.numRx) && AllEmpty(d')
    requires b.rxQueue[th.index].TotalWordAlignedSamples().Success?
    ensures RxArmed(b, v'.blocks, d'.rec, th.(active := true, captured := th.captured + [EmptyChannels(b.numRx)]))
  {
  }

  /** A capture that is not complete has room for another sample. */
  lemma RxHasRoom(b: Burst, s: StreamState, p: nat)
    requires Inv(b, s) && RxMayDeliver(b, s, p)
    ensures Filled(s.view.device, p, s.rx.captured[s.rx.index][p])
    ensures SAMPLE_SIZE * (|s.rx.captured[s.rx.index][p]| + 1) <= s.view.device.rec[p].size
  {
    var i, v := s.rx.index, s.view.rx;
    var total := v.blocks[i].TotalSamples();
    RxRequested(b, v, i);
    RxRegionConfined(b, v, i, p);
    assert Captured(s.view.device.mem, RxAddress(b, v.blocks, i, p), total, s.rx.captured[i][p], false);
    assert |s.rx.captured[i][p]| + 1 <= total;
    assert s.view.device.rec[p].size == SAMPLE_SIZE * total;
  }

  /** The radio is asked for as many samples as the region of a stream takes. */
  lemma RxRequested(b: Burst, v: TrackerView, i: nat)
    requires RxReserved(b, v) && i < |v.blocks| && b.rxQueue[i].TotalWordAlignedSamples().Success?
    ensures b.rxQueue[i].TotalWordAlignedSamples() == Success(v.blocks[i].TotalSamples())
  {
    SampleConservation(b.rxQueue[i]);
    assert v.blocks[i] == RxBlock(b.rxQueue[i]);
  }

  lemma RxDeliverKeepsInv(b: Burst, s: StreamState, s': StreamState, p: nat, x: Sample)
    requires Inv(b, s) && RxDeliver(b, s, s', p, x)
    ensures Inv(b, s')
  {
    var i := s.rx.index;
    var v, d, d' := s.view.rx, s.view.device, s'.view.device;
    var xs := s.rx.captured[i][p];
    RxHasRoom(b, s, p);
    DeliverFills(d, p, xs, x);
    var lo, hi := d.rec[p].offset, d.rec[p].offset + d.rec[p].size;
    DeliverFrame(d, p, x, lo, hi);
    TxInvFrame(b, s.view.tx, d.mem, d'.mem, d.play, s.tx, lo, hi);
    RxMemoryDelivered(b, v, d.mem, d'.mem, s.rx, s'.rx, p);
  }

  lemma RxMemoryDelivered(b: Burst, v: TrackerView, mem: seq<Byte>, mem': seq<Byte>,
                          th: RxThread, th': RxThread, p: nat)
    requires RxReserved(b, v) && RxMemory(b, v, mem, th) && th.index < |th.captured| && p < b.numRx
    requires |th'.captured| == |th.captured| && |th'.captured[th.index]| == |th.captured[th.index]|
    requires th' == th.(captured := th.captured[th.index := th.captured[th.index][p := th'.captured[th.index][p]]])
    requires |th'.captured[th.index][p]| <= v.blocks[th.index].TotalSamples()
    requires Holds(mem', RxAddress(b, v.blocks, th.index, p), th'.captured[th.index][p])
    requires AgreeOutside(mem, mem', RxAddress(b, v.blocks, th.index, p),
                          RxAddress(b, v.blocks, th.index, p) + SAMPLE_SIZE * v.blocks[th.index].TotalSamples())
    ensures RxMemory(b, v, mem', th')
  {
    var i := th.index;
    forall j, q | 0 <= j < |th'.captured| && 0 <= q < b.numRx
      ensures Captured(mem', RxAddress(b, v.blocks, j, q), v.blocks[j].TotalSamples(), th'.captured[j][q], j < i)
    {
      if (j, q) != (i, p) {
        assert Captured(mem, RxAddress(b, v.blocks, j, q), v.blocks[j].TotalSamples(), th.captured[j][q], j < i);
        OtherRegionKept(b, v, mem, mem', i, p, j, q, th.captured[j][q]);
        assert th'.captured[j][q] == th.captured[j][q];
      }
    }
  }

  /** Writing inside one region leaves what another region holds. */
  lemma OtherRegionKept(b: Burst, v: TrackerView, mem: seq<Byte>, mem': seq<Byte>,
                        i: nat, p: nat, j: nat, q: nat, xs: seq<Sample>)
    requires RxReserved(b, v) && i < |v.blocks| && p < b.numRx && j < |v.blocks| && q < b.numRx
    requires (j, q) != (i, p) && |xs| <= v.blocks[j].TotalSamples()
    requires Holds(mem, RxAddress(b, v.blocks, j, q), xs)
    requires AgreeOutside(mem, mem', RxAddress(b, v.blocks, i, p),
                          RxAddress(b, v.blocks, i, p) + SAMPLE_SIZE * v.blocks[i].TotalSamples())
    ensures Holds(mem', RxAddress(b, v.blocks, j, q), xs)
  {
    if i < j || (i == j && p < q) {
      RegionsDisjoint(v.blocks, b.numRx, i, p, j, q);
    } else {
      RegionsDisjoint(v.blocks, b.numRx, j, q, i, p);
    }
    var lo := RxAddress(b, v.blocks, i, p);
    HoldsFrame(mem, mem', lo, lo + SAMPLE_SIZE * v.blocks[i].TotalSamples(), RxAddress(b, v.blocks, j, q), xs);
  }

  lemma RxFinishKeepsInv(b: Burst, s: StreamState, s': StreamState)
    requires Inv(b, s) && RxFinish(b, s, s')
    ensures Inv(b, s')
  {
    RxRequested(b, s.view.rx, s.rx.index);
    RxMemoryEnds(b, s.view.rx, s.view.device.mem, s.rx);
  }

  lemma RxMemoryEnds(b: Burst, v: TrackerView, mem: seq<Byte>, th: RxThread)
    requires RxMemory(b, v, mem, th) && |th.captured| == th.index + 1
    requires forall p | 0 <= p < |th.captured[th.index]| ::
               |th.captured[th.index][p]| == v.blocks[th.index].TotalSamples()
    ensures RxMemory(b, v, mem, th.(active := false, index := th.index + 1))
  {
    var th' := th.(active := false, index := th.index + 1);
    forall j, p | 0 <= j < |th'.captured| && 0 <= p < b.numRx
      ensures Captured(mem, RxAddress(b, v.blocks, j, p), v.blocks[j].TotalSamples(),
                       th'.captured[j][p], j < th'.index)
    {
      assert Captured(mem, RxAddress(b, v.blocks, j, p), v.blocks[j].TotalSamples(), th.captured[j][p], j < th.index);
      if j == th.index {
        assert |th.captured[th.index][p]| == v.blocks[th.index].TotalSamples();
      }
    }
  }

  // ---------- Runs ----------

  lemma InitHasInv(b: Burst, s: StreamState)
    requires Init(b, s)
    ensures Inv(b, s)
  {
  }

  lemma StepKeepsInv(b: Burst, s: StreamState, s': StreamState, step: Step)
    requires Inv(b, s) && NextBy(b, s, s', step)
    ensures Inv(b, s')
  {
    match step
    case TxConfigures => TxConfigureKeepsInv(b, s, s');
    case TxPlays(p) => TxPlayKeepsInv(b, s, s', p);
    case TxFinishes => TxFinishKeepsInv(b, s, s');
    case TxFails(e) => TxFailKeepsInv(b, s, s', e);
    case RxConfigures(r) => RxConfigureKeepsInv(b, s, s', r);
    case RxDelivers(p, x) => RxDeliverKeepsInv(b, s, s', p, x);
    case RxFinishes => RxFinishKeepsInv(b, s, s');
    case RxFails(e) => RxFailKeepsInv(b, s, s', e);
  }

  lemma TxFailKeepsInv(b: Burst, s: StreamState, s': StreamState, e: UsrpError)
    requires Inv(b, s) && TxFail(s, s', e)
    ensures Inv(b, s')
  {
  }

  lemma RxFailKeepsInv(b: Burst, s: StreamState, s': StreamState, e: UsrpError)
    requires Inv(b, s) && RxFail(s, s', e)
    ensures Inv(b, s')
  {
  }

  ghost predicate IsRun(b: Burst, run: seq<StreamState>) {
    && run != [] && Init(b, run[0])
    && forall t | 0 < t < |run| :: Next(b, run[t - 1], run[t])
  }

  lemma {:induction false} RunKeepsInv(b: Burst, run: seq<StreamState>, t: nat)
    requires IsRun(b, run) && t < |run|
    ensures Inv(b, run[t])
  {
    if t == 0 {
      InitHasInv(b, run[0]);
    } else {
      RunKeepsInv(b, run, t - 1);
      assert Next(b, run[t - 1], run[t]);
      var step :| NextBy(b, run[t - 1], run[t], step);
      StepKeepsInv(b, run[t - 1], run[t], step);
    }
  }

  ghost predicate PlaysBelow(play: seq<PlayPort>, p: nat, limit: nat) {
    p < |play| && play[p].offset + play[p].size < limit
  }

  ghost predicate RecordsBetween(rec: seq<RecordPort>, p: nat, lo: nat, hi: nat) {
    p < |rec| && lo <= rec[p].offset && rec[p].offset + rec[p].size < hi
  }

  /** At every moment of every run, what a thread that is streaming plays lies in the first quarter of
      memory, and what it records lies in the three quarters after it. */
  lemma StreamsConfined(b: Burst, run: seq<StreamState>, t: nat, p: nat)
    requires IsRun(b, run) && t < |run|
    ensures run[t].tx.active && p < b.numTx ==>
              PlaysBelow(run[t].view.device.play, p, TxBufferSize(b.memSize))
    ensures run[t].rx.active && run[t].rx.error.None? && p < b.numRx ==>
              RecordsBetween(run[t].view.device.rec, p, RxBufferOffset(b.memSize),
                             RxBufferOffset(b.memSize) + RxBufferSize(b.memSize))
    ensures RxBufferOffset(b.memSize) + RxBufferSize(b.memSize) <= b.memSize
  {
    RunKeepsInv(b, run, t);
    var s := run[t];
    if s.tx.active && p < b.numTx {
      TxRegionConfined(b, s.view.tx, s.tx.index, p);
    }
    if s.rx.active && s.rx.error.None? && p < b.numRx {
      RxRegionConfined(b, s.view.rx, s.rx.index, p);
    }
  }

  ghost predicate TxCompleted(b: Burst, s: StreamState) {
    s.tx.error.None? && s.tx.index == |b.txQueue|
  }

  ghost predicate RxCompleted(b: Burst, s: StreamState) {
    s.rx.error.None? && s.rx.index == |b.rxQueue|
  }

  /** At the end of every run whose transmit thread did not fail, every stream has played exactly
      its queued signal, round and round, as often as asked; whatever the other thread did. */
  lemma PlayedIsQueued(b: Burst, run: seq<StreamState>, k: nat, p: nat)
    requires IsRun(b, run)
    requires TxCompleted(b, run[|run| - 1])
    requires k < |b.txQueue| && p < b.numTx
    ensures var played := run[|run| - 1].tx.played;
            && |played| == |b.txQueue| && |played[k]| == b.numTx && |b.txQueue[k].samples| == b.numTx
            && TxTotalSamples(b.txQueue[k]) >= 0
            && played[k][p] == Cyclic(b.txQueue[k].samples[p], TxTotalSamples(b.txQueue[k]))
  {
    RunKeepsInv(b, run, |run| - 1);
    assert ChannelsPlayed(b.txQueue[k], b.numTx, run[|run| - 1].tx.played[k], true);
    assert Played(b.txQueue[k], p, run[|run| - 1].tx.played[k][p], true);
  }

  /** At the end of every run whose receive thread did not fail, the RX buffer holds all samples
      that arrived for every configuration and stream; whatever the other thread did. */
  lemma CapturedIsStored(b: Burst, run: seq<StreamState>, i: nat, p: nat)
    requires IsRun(b, run)
    requires RxCompleted(b, run[|run| - 1])
    requires i < |b.rxQueue| && p < b.numRx
    ensures var s := run[|run| - 1];
            && s.view.rx.blocks == RxBlocks(b.rxQueue)
            && |s.rx.captured| == |b.rxQueue| && |s.rx.captured[i]| == b.numRx
            && |s.rx.captured[i][p]| == b.rxQueue[i].Period() * b.rxQueue[i].numRepetitions
            && Holds(s.view.device.mem, RxAddress(b, s.view.rx.blocks, i, p), s.rx.captured[i][p])
  {
    RunKeepsInv(b, run, |run| - 1);
    StoredAtEnd(b, run[|run| - 1], i, p);
  }

  lemma StoredAtEnd(b: Burst, s: StreamState, i: nat, p: nat)
    requires RxInv(b, s.view.rx, s.view.device.mem, s.view.device.rec, s.rx) && RxCompleted(b, s)
    requires i < |b.rxQueue| && p < b.numRx
    ensures s.view.rx.blocks == RxBlocks(b.rxQueue)
    ensures |s.rx.captured| == |b.rxQueue| && |s.rx.captured[i]| == b.numRx
    ensures |s.rx.captured[i][p]| == b.rxQueue[i].Period() * b.rxQueue[i].numRepetitions
    ensures Holds(s.view.device.mem, RxAddress(b, s.view.rx.blocks, i, p), s.rx.captured[i][p])
  {
    assert b.rxQueue[..|b.rxQueue|] == b.rxQueue;
    assert Captured(s.view.device.mem, RxAddress(b, s.view.rx.blocks, i, p), s.view.rx.blocks[i].TotalSamples(),
                    s.rx.captured[i][p], true);
  }

  /** Two runs of one burst, however differently the threads interleave, play the same samples. */
  lemma InterleavingsPlayTheSame(b: Burst, run: seq<StreamState>, run': seq<StreamState>)
    requires IsRun(b, run) && IsRun(b, run')
    requires TxCompleted(b, run[|run| - 1]) && TxCompleted(b, run'[|run'| - 1])
    ensures run[|run| - 1].tx.played == run'[|run'| - 1].tx.played
  {
    var played, played' := run[|run| - 1].tx.played, run'[|run'| - 1].tx.played;
    RunKeepsInv(b, run, |run| - 1);
    RunKeepsInv(b, run', |run'| - 1);
    forall k | 0 <= k < |b.txQueue| ensures played[k] == played'[k] {
      forall p | 0 <= p < b.numTx ensures played[k][p] == played'[k][p] {
        PlayedIsQueued(b, run, k, p);
        PlayedIsQueued(b, run', k, p);
      }
    }
  }

  /** If the same samples arrive in two runs, each region of the RX buffer is at the same place
      and holds the same samples. */
  lemma InterleavingsStoreTheSame(b: Burst, run: seq<StreamState>, run': seq<StreamState>, i: nat, p: nat, j: nat)
    requires IsRun(b, run) && IsRun(b, run')
    requires RxCompleted(b, run[|run| - 1]) && RxCompleted(b, run'[|run'| - 1])
    requires run[|run| - 1].rx.captured == run'[|run'| - 1].rx.captured
    requires i < |b.rxQueue| && p < b.numRx && j < b.rxQueue[i].Period() * b.rxQueue[i].numRepetitions
    ensures var s, s' := run[|run| - 1], run'[|run'| - 1];
            && s.view.rx.blocks == s'.view.rx.blocks == RxBlocks(b.rxQueue)
            && var a := RxAddress(b, RxBlocks(b.rxQueue), i, p) + SAMPLE_SIZE * j;
            && a + SAMPLE_SIZE <= |s.view.device.mem| && a + SAMPLE_SIZE <= |s'.view.device.mem|
            && ReadSample(s.view.device.mem, a) == ReadSample(s'.view.device.mem, a)
  {
    var a := RxAddress(b, RxBlocks(b.rxQueue), i, p);
    CapturedIsStored(b, run, i, p);
    HoldsAt(run[|run| - 1].view.device.mem, a, run[|run| - 1].rx.captured[i][p], j);
    CapturedIsStored(b, run', i, p);
    HoldsAt(run'[|run'| - 1].view.device.mem, a, run'[|run'| - 1].rx.captured[i][p], j);
  }
}
