/** The two threads of a burst (`performStreaming` in uhd_wrapper/lib/usrp.cpp) as a transition
    system. One thread cues uploaded blocks and has them played, the other reserves memory and
    has it recorded; the hardware plays and records one sample at a time. Steps of the two
    threads interleave in any order. */
module StreamingThreads {
  import opened Outcomes
  import opened Samples
  import opened StreamingConfig
  import opened BlockLayout
  import opened BlockOffsetTracking
  import opened ReplayDevice
  import opened ReplayBlockConfiguration

  /** What does not change during a burst. */
  datatype Burst = Burst(
    memSize: nat, numTx: nat, numRx: nat, txQueue: seq<TxStreamingConfig>, rxQueue: seq<RxStreamingConfig>)

  /** `played[k][p]`: what stream p has played of configuration k. */
  datatype TxThread = TxThread(index: nat, active: bool, error: Option<UsrpError>, played: seq<MimoSignal>)

  /** `captured[i][p]`: what has arrived on stream p for configuration i. */
  datatype RxThread = RxThread(index: nat, active: bool, error: Option<UsrpError>, captured: seq<MimoSignal>)

  datatype StreamState = StreamState(view: ReplayView, tx: TxThread, rx: RxThread)

  const TX_IDLE := TxThread(0, false, None, [])
  const RX_IDLE := RxThread(0, false, None, [])

  function EmptyChannels(n: nat): MimoSignal {
    seq(n, _ => [])
  }

  function TxBlock(conf: TxStreamingConfig): (r: ReplayBlock)
    ensures |conf.samples| > 0 ==> r.TotalSamples() == |conf.samples[0]|
  {
    BlockFor(if |conf.samples| == 0 then 0 else |conf.samples[0]|, 1, 0)
  }

  function TxBlocks(queue: seq<TxStreamingConfig>): (r: seq<ReplayBlock>)
    ensures |r| == |queue|
    ensures forall k | 0 <= k < |queue| :: r[k] == TxBlock(queue[k])
  {
    seq(|queue|, k requires 0 <= k < |queue| => TxBlock(queue[k]))
  }

  function RxBlock(conf: RxStreamingConfig): (r: ReplayBlock)
    ensures r.TotalSamples() == conf.Period() * conf.numRepetitions
  {
    BlockFor(conf.WordAlignedNoSamples(), conf.numRepetitions, conf.repetitionPeriod)
  }

  function RxBlocks(queue: seq<RxStreamingConfig>): (r: seq<ReplayBlock>)
    ensures |r| == |queue|
    ensures forall i | 0 <= i < |queue| :: r[i] == RxBlock(queue[i])
  {
    seq(|queue|, i requires 0 <= i < |queue| => RxBlock(queue[i]))
  }

  // ---------- Invariants ----------

  /** The queue entries are valid, and their blocks are those in the TX buffer. */
  ghost predicate TxReserved(b: Burst, v: TrackerView) {
    && (forall k | 0 <= k < |b.txQueue| :: ValidTx(b.txQueue[k], b.numTx))
    && v.memSize == TxBufferSize(b.memSize) && v.streams == b.numTx && v.overrunAt.None?
    && v.blocks == TxBlocks(b.txQueue) && v.Sound()
  }

  ghost function TxAddress(b: Burst, blocks: seq<ReplayBlock>, k: nat, p: nat): nat
    requires k < |blocks|
  {
    SAMPLE_SIZE * RegionStart(blocks, b.numTx, k, p)
  }

  /** Memory holds the uploaded signals of the first n configurations. */
  ghost predicate TxStored(b: Burst, blocks: seq<ReplayBlock>, mem: seq<Byte>, n: nat)
    requires n <= |b.txQueue| <= |blocks|
  {
    forall k, p | 0 <= k < n && 0 <= p < |b.txQueue[k].samples| ::
      Holds(mem, TxAddress(b, blocks, k, p), b.txQueue[k].samples[p])
  }

  ghost predicate TxMemory(b: Burst, v: TrackerView, mem: seq<Byte>) {
    |mem| == b.memSize && TxReserved(b, v) && TxStored(b, v.blocks, mem, |b.txQueue|)
  }

  ghost predicate TxProgress(b: Burst, th: TxThread) {
    && |th.played| == th.index + (if th.active then 1 else 0) <= |b.txQueue|
    && forall k | 0 <= k < |th.played| :: ChannelsPlayed(b.txQueue[k], b.numTx, th.played[k], k < th.index)
  }

  /** The output ports play the regions of the configuration in progress. */
  ghost predicate TxCued(b: Burst, blocks: seq<ReplayBlock>, play: seq<PlayPort>, k: nat) {
    && k < |b.txQueue| && k < |blocks| && |b.txQueue[k].samples| == b.numTx <= |play|
    && forall p | 0 <= p < b.numTx ::
         play[p] == PlayPort(TxAddress(b, blocks, k, p), SAMPLE_SIZE * |b.txQueue[k].samples[p]|)
  }

  ghost predicate TxInv(b: Burst, v: TrackerView, mem: seq<Byte>, play: seq<PlayPort>, th: TxThread) {
    && TxMemory(b, v, mem) && TxProgress(b, th)
    && b.numTx <= |play| && v.replays == |th.played|
    && (th.active ==> TxCued(b, v.blocks, play, th.index))
  }

  /** `xs` is how playing the signal of stream p over and over begins; all of what is asked for,
      if `complete`. */
  ghost predicate Played(conf: TxStreamingConfig, p: nat, xs: seq<Sample>, complete: bool)
    requires p < |conf.samples|
  {
    && xs == Cyclic(conf.samples[p], |xs|)
    && |xs| <= TxTotalSamples(conf) && (complete ==> |xs| == TxTotalSamples(conf))
  }

  ghost predicate ChannelsPlayed(conf: TxStreamingConfig, n: nat, channels: MimoSignal, complete: bool) {
    && |channels| == |conf.samples| == n > 0
    && forall p | 0 <= p < n :: Played(conf, p, channels[p], complete)
  }

  /** The region at `base` begins with the samples `xs`; it is full, if `complete`. */
  ghost predicate Captured(mem: seq<Byte>, base: nat, total: nat, xs: seq<Sample>, complete: bool) {
    Holds(mem, base, xs) && |xs| <= total && (complete ==> |xs| == total)
  }

  ghost function RxAddress(b: Burst, blocks: seq<ReplayBlock>, i: nat, p: nat): nat
    requires i < |blocks|
  {
    RxBufferOffset(b.memSize) + SAMPLE_SIZE * RegionStart(blocks, b.numRx, i, p)
  }

  ghost predicate RxReserved(b: Burst, v: TrackerView) {
    && (forall i | 0 <= i < |b.rxQueue| :: ValidRx(b.rxQueue[i]))
    && v.memSize == RxBufferSize(b.memSize) && v.streams == b.numRx && v.overrunAt.None? && v.replays == 0
    && |v.blocks| <= |b.rxQueue| && v.blocks == RxBlocks(b.rxQueue[..|v.blocks|]) && v.Sound()
  }

  ghost predicate RxMemory(b: Burst, v: TrackerView, mem: seq<Byte>, th: RxThread) {
    && |mem| == b.memSize && |th.captured| <= |v.blocks|
    && (forall i | 0 <= i < |th.captured| :: |th.captured[i]| == b.numRx)
    && forall i, p | 0 <= i < |th.captured| && 0 <= p < b.numRx ::
         Captured(mem, RxAddress(b, v.blocks, i, p), v.blocks[i].TotalSamples(), th.captured[i][p], i < th.index)
  }

  /** The input ports record the regions of the capture in progress. */
  ghost predicate RxArmed(b: Burst, blocks: seq<ReplayBlock>, rec: seq<RecordPort>, th: RxThread) {
    && th.index < |blocks| && th.index < |b.rxQueue| && th.index < |th.captured|
    && |th.captured[th.index]| == b.numRx <= |rec|
    && b.rxQueue[th.index].TotalWordAlignedSamples().Success?
    && forall p | 0 <= p < b.numRx ::
         rec[p] == RecordPort(RxAddress(b, blocks, th.index, p), SAMPLE_SIZE * blocks[th.index].TotalSamples(),
                              SAMPLE_SIZE * |th.captured[th.index][p]|)
  }

  ghost predicate RxInv(b: Burst, v: TrackerView, mem: seq<Byte>, rec: seq<RecordPort>, th: RxThread) {
    && RxReserved(b, v) && RxMemory(b, v, mem, th)
    && b.numRx <= |rec|
    && |th.captured| == th.index + (if th.active then 1 else 0)
    && (th.error.None? ==> |th.captured| == |v.blocks|)
    && (th.active && th.error.None? ==> RxArmed(b, v.blocks, rec, th))
  }

  ghost predicate Inv(b: Burst, s: StreamState) {
    && TxInv(b, s.view.tx, s.view.device.mem, s.view.device.play, s.tx)
    && RxInv(b, s.view.rx, s.view.device.mem, s.view.device.rec, s.rx)
  }

  // ---------- Steps ----------

  /** The transmit thread cues the next block. */
  ghost predicate TxConfigure(b: Burst, s: StreamState, s': StreamState) {
    && s.tx.error.None? && !s.tx.active && s.tx.index < |b.txQueue| && |b.txQueue[s.tx.index].samples| > 0
    && s'.rx == s.rx && s'.view.rx == s.view.rx
    && s'.view.device.mem == s.view.device.mem && s'.view.device.rec == s.view.device.rec
    && s'.view.tx == s.view.tx.AfterReplay()
    && match s.view.tx.ReplayOutcome()
       case Pass =>
         && Cued(s'.view.device, b.numTx, 0, s'.view.tx, |b.txQueue[s.tx.index].samples[0]|)
         && s'.tx == s.tx.(active := true, played := s.tx.played + [EmptyChannels(b.numTx)])
       case Fail(e) => s'.tx == s.tx.(error := Some(e))
  }

  ghost predicate TxMayPlay(b: Burst, s: StreamState, p: nat) {
    && s.tx.error.None? && s.tx.active && s.tx.index < |b.txQueue| && p < b.numTx <= |s.view.device.play|
    && s.tx.index < |s.tx.played| && p < |s.tx.played[s.tx.index]| && |b.txQueue[s.tx.index].samples| > 0
    && |s.tx.played[s.tx.index][p]| < TxTotalSamples(b.txQueue[s.tx.index])
    && var w := s.view.device.play[p]; w.size >= SAMPLE_SIZE && w.offset + w.size <= |s.view.device.mem|
  }

  function TxAfterPlay(s: StreamState, p: nat): StreamState
    requires s.tx.index < |s.tx.played| && p < |s.tx.played[s.tx.index]| && p < |s.view.device.play|
    requires var w := s.view.device.play[p]; w.size >= SAMPLE_SIZE && w.offset + w.size <= |s.view.device.mem|
  {
    var k := s.tx.index;
    var xs := s.tx.played[k][p];
    s.(tx := s.tx.(played := s.tx.played[k := s.tx.played[k][p := xs + [s.view.device.PlayedSample(p, |xs|)]]]))
  }

  /** Stream p plays its next sample. */
  ghost predicate TxPlay(b: Burst, s: StreamState, s': StreamState, p: nat) {
    TxMayPlay(b, s, p) && s' == TxAfterPlay(s, p)
  }

  /** All streams have played all samples asked for. */
  ghost predicate TxFinish(b: Burst, s: StreamState, s': StreamState) {
    && s.tx.error.None? && s.tx.active && s.tx.index < |b.txQueue| && |b.txQueue[s.tx.index].samples| > 0
    && s.tx.index < |s.tx.played|
    && (forall p | 0 <= p < |s.tx.played[s.tx.index]| ::
          |s.tx.played[s.tx.index][p]| == TxTotalSamples(b.txQueue[s.tx.index]))
    && s' == s.(tx := s.tx.(active := false, index := s.tx.index + 1))
  }

  /** The radio refuses or reports an error; the thread ends. */
  ghost predicate TxFail(s: StreamState, s': StreamState, e: UsrpError) {
    s.tx.error.None? && s.tx.active && s' == s.(tx := s.tx.(error := Some(e)))
  }

  /** The receive thread reserves memory for the next capture and records into it. */
  ghost predicate RxConfigure(b: Burst, s: StreamState, s': StreamState, r: Outcome) {
    && s.rx.error.None? && !s.rx.active && s.rx.index < |b.rxQueue|
    && s'.tx == s.tx && s'.view.tx == s.view.tx
    && var conf := b.rxQueue[s.rx.index];
    && var outcome := s.view.rx.RecordOutcome(RxBlock(conf));
    && s'.view.rx == s.view.rx.AfterRecord(RxBlock(conf))
    && (outcome.Fail? ==> r == outcome && s'.view.device == s.view.device)
    && (outcome.Pass? ==> Recording(s.view.device, s'.view.device, s'.view.rx, RxBufferOffset(b.memSize), r))
    && s'.rx == (if r.Fail? then s.rx.(error := Some(r.error))
                 else if conf.TotalWordAlignedSamples().Failure? then s.rx.(error := Some(UnalignedPeriod))
                 else s.rx.(active := true, captured := s.rx.captured + [EmptyChannels(b.numRx)]))
  }

  ghost predicate RxMayDeliver(b: Burst, s: StreamState, p: nat) {
    && s.rx.error.None? && s.rx.active && s.rx.index < |s.rx.captured| && s.rx.index < |b.rxQueue|
    && p < b.numRx <= |s.view.device.rec| && p < |s.rx.captured[s.rx.index]|
    && Success(|s.rx.captured[s.rx.index][p]|) != b.rxQueue[s.rx.index].TotalWordAlignedSamples()
  }

  function RxAfterDeliver(s: StreamState, p: nat, x: Sample): StreamState
    requires s.rx.index < |s.rx.captured| && p < |s.rx.captured[s.rx.index]| && p < |s.view.device.rec|
  {
    var i := s.rx.index;
    s.(view := s.view.(device := s.view.device.Deliver(p, x)),
       rx := s.rx.(captured := s.rx.captured[i := s.rx.captured[i][p := s.rx.captured[i][p] + [x]]]))
  }

  /** A sample of the capture arrives on stream p. */
  ghost predicate RxDeliver(b: Burst, s: StreamState, s': StreamState, p: nat, x: Sample) {
    RxMayDeliver(b, s, p) && s' == RxAfterDeliver(s, p, x)
  }

  /** Every stream has delivered as many samples as the radio was asked for. */
  ghost predicate RxFinish(b: Burst, s: StreamState, s': StreamState) {
    && s.rx.error.None? && s.rx.active && s.rx.index < |s.rx.captured| && s.rx.index < |b.rxQueue|
    && (forall p | 0 <= p < |s.rx.captured[s.rx.index]| ::
          Success(|s.rx.captured[s.rx.index][p]|) == b.rxQueue[s.rx.index].TotalWordAlignedSamples())
    && s' == s.(rx := s.rx.(active := false, index := s.rx.index + 1))
  }

  ghost predicate RxFail(s: StreamState, s': StreamState, e: UsrpError) {
    s.rx.error.None? && s.rx.active && s' == s.(rx := s.rx.(error := Some(e)))
  }

  datatype Step =
    | TxConfigures
    | TxPlays(p: nat)
    | TxFinishes
    | TxFails(e: UsrpError)
    | RxConfigures(r: Outcome)
    | RxDelivers(p: nat, x: Sample)
    | RxFinishes
    | RxFails(e: UsrpError)

  ghost predicate NextBy(b: Burst, s: StreamState, s': StreamState, step: Step) {
    match step
    case TxConfigures => TxConfigure(b, s, s')
    case TxPlays(p) => TxPlay(b, s, s', p)
    case TxFinishes => TxFinish(b, s, s')
    case TxFails(e) => TxFail(s, s', e)
    case RxConfigures(r) => RxConfigure(b, s, s', r)
    case RxDelivers(p, x) => RxDeliver(b, s, s', p, x)
    case RxFinishes => RxFinish(b, s, s')
    case RxFails(e) => RxFail(s, s', e)
  }

  ghost predicate Next(b: Burst, s: StreamState, s': StreamState) {
    exists step :: NextBy(b, s, s', step)
  }

  // ---------- What the radio answers ----------

  /** The radio during a burst: whether it reports an error for the transmission or the capture of a
      configuration; what strays in while the ports for a capture are set up; and sample j that
      arrives on stream p for configuration i. */
  datatype Radio = Radio(txFault: nat -> Option<UsrpError>, rxFault: nat -> Option<UsrpError>,
                         strays: nat -> Strays, air: (nat, nat, nat) -> Sample)

  /** A step that this radio allows: a thread fails exactly when an error is reported, or when the
      recording ports could not be emptied, and what arrives is what is in the air. */
  ghost predicate Allows(radio: Radio, b: Burst, s: StreamState, step: Step) {
    match step
    case TxFails(e) => radio.txFault(s.tx.index) == Some(e)
    case TxFinishes => radio.txFault(s.tx.index) == None
    case RxFails(e) => radio.rxFault(s.rx.index) == Some(e)
    case RxFinishes => radio.rxFault(s.rx.index) == None
    case RxConfigures(r) => r == Fail(CannotClearBuffer) ==> Noisy(radio.strays(s.rx.index), b.numRx)
    case RxDelivers(p, x) =>
      && s.rx.index < |s.rx.captured| && p < |s.rx.captured[s.rx.index]|
      && x == radio.air(s.rx.index, p, |s.rx.captured[s.rx.index][p]|)
    case _ => true
  }

  ghost predicate NextAllowed(radio: Radio, b: Burst, s: StreamState, s': StreamState) {
    exists step :: NextBy(b, s, s', step) && Allows(radio, b, s, step)
  }

  /** After upload and before either thread has moved. */
  ghost predicate Init(b: Burst, s: StreamState) {
    && s.tx == TX_IDLE && s.rx == RX_IDLE
    && |s.view.device.mem| == b.memSize && b.numTx <= |s.view.device.play| && b.numRx <= |s.view.device.rec|
    && TxReserved(b, s.view.tx) && s.view.tx.replays == 0
    && TxStored(b, s.view.tx.blocks, s.view.device.mem, |b.txQueue|)
    && RxReserved(b, s.view.rx) && s.view.rx.blocks == []
  }
}
