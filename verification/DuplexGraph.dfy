/** The signal graph: the handshake of stream counts and the transfer loops that move samples
    between host and replay memory (uhd_wrapper/lib/full_duplex_rfnoc_graph.cpp). The device
    decides how many samples each transfer moves; it may move none. */
module DuplexGraph {
  import opened Outcomes
  import opened Samples
  import opened StreamingConfig
  import opened ReplayDevice

  const PACKET_SIZE: nat := 8192 / 2

  // ---------- Requests of a transfer ----------

  /** One call of a transfer loop: from sample `from` on, `asked` samples, of which `moved` moved. */
  datatype Request = Request(from: nat, asked: nat, moved: nat)

  /** How many samples the first k requests have moved. */
  function MovedBefore(requests: seq<Request>, k: nat): nat
    requires k <= |requests|
  {
    if k == 0 then 0 else requests[k - 1].from + requests[k - 1].moved
  }

  function Done(requests: seq<Request>): nat {
    MovedBefore(requests, |requests|)
  }

  /** The request goes on where the one before it stopped, and asks for a full packet, or for all
      that is left when that is less. */
  ghost predicate Proper(q: Request, from: nat, total: nat) {
    q.from == from < total && q.asked == Min(total - from, PACKET_SIZE) && q.moved <= q.asked
  }

  /** The requests move the first samples of `total`, each once and in order; none asks for more
      than a packet or for anything past the end. */
  ghost predicate Chain(requests: seq<Request>, total: nat) {
    && Done(requests) <= total
    && forall k {:trigger MovedBefore(requests, k)} | 0 <= k < |requests| ::
         Proper(requests[k], MovedBefore(requests, k), total)
  }

  function NextRequest(requests: seq<Request>, total: nat, moved: nat): Request
    requires Done(requests) < total
  {
    Request(Done(requests), Min(total - Done(requests), PACKET_SIZE), moved)
  }

  lemma ChainExtends(requests: seq<Request>, total: nat, moved: nat)
    requires Chain(requests, total) && Done(requests) < total
    requires moved <= Min(total - Done(requests), PACKET_SIZE)
    ensures var requests' := requests + [NextRequest(requests, total, moved)];
            Chain(requests', total) && Done(requests') == Done(requests) + moved
  {
    var requests' := requests + [NextRequest(requests, total, moved)];
    forall k | 0 <= k < |requests'| ensures Proper(requests'[k], MovedBefore(requests', k), total) {
      assert MovedBefore(requests', k) == MovedBefore(requests, k);
      assert k < |requests| ==> requests'[k] == requests[k];
    }
  }

  /** A device that takes all it is offered is sent the expected number of packets, and the last
      one has the expected length. */
  lemma GreedyChain(requests: seq<Request>, total: nat)
    requires Chain(requests, total) && Done(requests) == total > 0
    requires forall k | 0 <= k < |requests| :: requests[k].moved == requests[k].asked
    ensures |requests| == CalcNoPackages(total, PACKET_SIZE)
    ensures requests[|requests| - 1].moved == CalcNoSamplesLastBuffer(total, PACKET_SIZE)
  {
    var last := |requests| - 1;
    FullPackets(requests, total, last);
    assert Proper(requests[last], MovedBefore(requests, last), total);
    var rest := requests[last].moved;
    assert total == PACKET_SIZE * last + rest && 1 <= rest <= PACKET_SIZE;
    PackagesUnique(total, last, rest);
  }

  lemma PackagesUnique(total: nat, last: nat, rest: nat)
    requires total == PACKET_SIZE * last + rest && 1 <= rest <= PACKET_SIZE
    ensures last + 1 == CalcNoPackages(total, PACKET_SIZE) && rest == CalcNoSamplesLastBuffer(total, PACKET_SIZE)
  {
    DivModUnique(total + PACKET_SIZE - 1, PACKET_SIZE, last + 1, rest - 1);
    if rest == PACKET_SIZE {
      DivModUnique(total, PACKET_SIZE, last + 1, 0);
    } else {
      DivModUnique(total, PACKET_SIZE, last, rest);
    }
  }

  lemma {:induction false} FullPackets(requests: seq<Request>, total: nat, k: nat)
    requires Chain(requests, total) && k < |requests|
    requires forall j | 0 <= j < |requests| :: requests[j].moved == requests[j].asked
    ensures requests[k].from == PACKET_SIZE * k
  {
    assert Proper(requests[k], MovedBefore(requests, k), total);
    if k > 0 {
      FullPackets(requests, total, k - 1);
      assert Proper(requests[k - 1], MovedBefore(requests, k - 1), total);
      assert requests[k - 1].moved == requests[k - 1].asked;
    }
  }

  // ---------- Upload ----------

  /** The record windows of the channels have room for `length` samples each, do not overlap and
      lie in lo .. hi. */
  ghost predicate Windows(d: Device, channels: nat, length: nat, lo: nat, hi: nat) {
    && channels <= |d.rec| && hi <= |d.mem|
    && (forall p | 0 <= p < channels :: RecFits(d, p, SAMPLE_SIZE * length, lo, hi))
    && forall p, q | 0 <= p < channels && 0 <= q < channels && p != q :: RecApart(d, p, q)
  }

  /** The first c channels have been delivered up to sample `ahead`, the others up to `behind`. */
  ghost predicate Delivered(d: Device, signal: MimoSignal, c: nat, ahead: nat, behind: nat) {
    && c <= |signal| <= |d.rec|
    && (forall p | 0 <= p < c :: ahead <= |signal[p]| && Filled(d, p, signal[p][..ahead]))
    && forall p | c <= p < |signal| :: behind <= |signal[p]| && Filled(d, p, signal[p][..behind])
  }

  function Buffers(signal: MimoSignal, from: nat, to: nat): (r: seq<seq<Sample>>)
    requires from <= to && forall p | 0 <= p < |signal| :: to <= |signal[p]|
    ensures |r| == |signal|
  {
    seq(|signal|, p requires 0 <= p < |signal| => signal[p][from..to])
  }

  /** `d'` is `d` after the first c channels have been sent up to sample `to`. */
  ghost predicate Sent(d: Device, d': Device, signal: MimoSignal, c: nat, from: nat, to: nat,
                       length: nat, lo: nat, hi: nat)
  {
    Windows(d', |signal|, length, lo, hi) && SameBut(d, d', lo, hi) && Delivered(d', signal, c, to, from)
  }

  lemma {:induction false} SendDelivers(
    d: Device, signal: MimoSignal, c: nat, from: nat, to: nat, length: nat, lo: nat, hi: nat)
    requires c <= |signal| && from <= to <= length && EqualLengths(signal, length)
    requires Windows(d, |signal|, length, lo, hi) && Delivered(d, signal, |signal|, from, from)
    ensures Sent(d, d.Send(Buffers(signal, from, to), c), signal, c, from, to, length, lo, hi)
  {
    var buffers := Buffers(signal, from, to);
    if c == 0 {
      assert d.Send(buffers, c) == d;
    } else {
      SendDelivers(d, signal, c - 1, from, to, length, lo, hi);
      var d1 := d.Send(buffers, c - 1);
      assert buffers[c - 1] == signal[c - 1][from..to];
      assert d.Send(buffers, c) == d1.DeliverAll(c - 1, signal[c - 1][from..to]);
      SendOneChannel(d, d1, signal, c - 1, from, to, length, lo, hi);
    }
  }

  lemma SendOneChannel(
    d0: Device, d: Device, signal: MimoSignal, c: nat, from: nat, to: nat, length: nat, lo: nat, hi: nat)
    requires c < |signal| && from <= to <= length && EqualLengths(signal, length)
    requires Sent(d0, d, signal, c, from, to, length, lo, hi)
    ensures Sent(d0, d.DeliverAll(c, signal[c][from..to]), signal, c + 1, from, to, length, lo, hi)
  {
    var ys := signal[c][from..to];
    var d' := d.DeliverAll(c, ys);
    SendOneFrame(d0, d, signal, c, ys, from, to, length, lo, hi);
    assert RecFits(d, c, SAMPLE_SIZE * length, lo, hi);
    DeliverAllFills(d, c, signal[c][..from], ys);
    assert signal[c][..from] + ys == signal[c][..to];
    forall p | 0 <= p < |signal| && p != c
      ensures Filled(d', p, signal[p][..if p < c then to else from])
    {
      assert RecFits(d, p, SAMPLE_SIZE * length, lo, hi) && RecApart(d, c, p);
      DeliverAllKeeps(d, c, ys, p, signal[p][..if p < c then to else from]);
    }
  }

  lemma WindowsKept(d: Device, d': Device, channels: nat, length: nat, lo: nat, hi: nat)
    requires Windows(d, channels, length, lo, hi) && SameBut(d, d', lo, hi)
    ensures Windows(d', channels, length, lo, hi)
  {
    forall p | 0 <= p < channels ensures RecFits(d', p, SAMPLE_SIZE * length, lo, hi) {
      assert RecFits(d, p, SAMPLE_SIZE * length, lo, hi);
    }
    forall p, q | 0 <= p < channels && 0 <= q < channels && p != q ensures RecApart(d', p, q) {
      assert RecApart(d, p, q);
    }
  }

  lemma SendOneFrame(d0: Device, d: Device, signal: MimoSignal, c: nat, ys: seq<Sample>,
                     from: nat, to: nat, length: nat, lo: nat, hi: nat)
    requires c < |signal| && from <= to <= length && EqualLengths(signal, length)
    requires Sent(d0, d, signal, c, from, to, length, lo, hi)
    ensures d.rec[c].fullness <= d.rec[c].size
    ensures var d' := d.DeliverAll(c, ys);
            Windows(d', |signal|, length, lo, hi) && SameBut(d0, d', lo, hi)
  {
    assert Filled(d, c, signal[c][..from]);
    assert RecFits(d, c, SAMPLE_SIZE * length, lo, hi);
    DeliverAllFrame(d, c, ys, lo, hi);
    SameButTrans(d0, d, d.DeliverAll(c, ys), lo, hi);
    WindowsKept(d, d.DeliverAll(c, ys), |signal|, length, lo, hi);
  }

  /** The state of an upload after some requests. */
  ghost predicate Uploading(d0: Device, d: Device, signal: MimoSignal, requests: seq<Request>,
                            length: nat, lo: nat, hi: nat)
  {
    && EqualLengths(signal, length) && Chain(requests, length)
    && Windows(d, |signal|, length, lo, hi) && SameBut(d0, d, lo, hi)
    && Delivered(d, signal, |signal|, Done(requests), Done(requests))
  }

  lemma UploadStarts(d: Device, signal: MimoSignal, length: nat, lo: nat, hi: nat)
    requires EqualLengths(signal, length) && Windows(d, |signal|, length, lo, hi)
    requires forall p | 0 <= p < |signal| :: d.rec[p].fullness == 0
    ensures Uploading(d, d, signal, [], length, lo, hi)
  {
    forall p | 0 <= p < |signal| ensures Filled(d, p, signal[p][..0]) {
      assert RecFits(d, p, SAMPLE_SIZE * length, lo, hi);
    }
  }

  lemma UploadStep(d0: Device, d: Device, signal: MimoSignal, requests: seq<Request>,
                   length: nat, lo: nat, hi: nat, moved: nat)
    requires Uploading(d0, d, signal, requests, length, lo, hi)
    requires Done(requests) < length && moved <= Min(length - Done(requests), PACKET_SIZE)
    ensures var d' := d.Send(Buffers(signal, Done(requests), Done(requests) + moved), |signal|);
            Uploading(d0, d', signal, requests + [NextRequest(requests, length, moved)], length, lo, hi)
  {
    var from, to := Done(requests), Done(requests) + moved;
    SendDelivers(d, signal, |signal|, from, to, length, lo, hi);
    ChainExtends(requests, length, moved);
    SameButTrans(d0, d, d.Send(Buffers(signal, from, to), |signal|), lo, hi);
  }

  // ---------- Download ----------

  /** The first n samples each of the first c output ports plays. */
  function StreamOut(d: Device, c: nat, n: nat): (r: MimoSignal)
    requires Playable(d, c, n)
    ensures |r| == c && EqualLengths(r, n)
    ensures forall p, i | 0 <= p < c && 0 <= i < n :: r[p][i] == d.PlayedSample(p, i)
  {
    seq(c, p requires 0 <= p < c && Playable(d, c, n) =>
      seq(n, i requires 0 <= i < n && Playable(d, c, n) => d.PlayedSample(p, i)))
  }

  /** If there is anything to play, the windows of the ports are in memory and not empty. They may
      be shorter than what is played, or longer. */
  predicate Playable(d: Device, c: nat, n: nat) {
    n > 0 ==>
      && c <= |d.play|
      && forall p | 0 <= p < c :: d.play[p].size >= SAMPLE_SIZE && d.play[p].offset + d.play[p].size <= |d.mem|
  }

  /** `result` with the samples from .. to of every channel replaced by those of `source`. */
  function Received(result: MimoSignal, source: MimoSignal, from: nat, to: nat): (r: MimoSignal)
    requires |source| == |result| && from <= to
    requires forall p | 0 <= p < |result| :: to <= |source[p]| == |result[p]|
    ensures |r| == |result|
    ensures forall p | 0 <= p < |r| :: |r[p]| == |result[p]|
    ensures forall p, i | 0 <= p < |r| && 0 <= i < |r[p]| ::
              r[p][i] == if from <= i < to then source[p][i] else result[p][i]
  {
    seq(|result|, p requires 0 <= p < |result| => result[p][..from] + source[p][from..to] + result[p][to..])
  }

  /** The state of a download after some requests: the result agrees with its source so far. */
  ghost predicate Downloading(result: MimoSignal, source: MimoSignal, requests: seq<Request>, length: nat) {
    && Chain(requests, length)
    && |result| == |source| && EqualLengths(result, length) && EqualLengths(source, length)
    && forall p, i | 0 <= p < |result| && 0 <= i < Done(requests) :: result[p][i] == source[p][i]
  }

  lemma DownloadStep(result: MimoSignal, source: MimoSignal, requests: seq<Request>, length: nat, moved: nat)
    requires Downloading(result, source, requests, length)
    requires Done(requests) < length && moved <= Min(length - Done(requests), PACKET_SIZE)
    ensures Downloading(Received(result, source, Done(requests), Done(requests) + moved), source,
                        requests + [NextRequest(requests, length, moved)], length)
  {
    ChainExtends(requests, length, moved);
  }

  lemma DownloadComplete(result: MimoSignal, source: MimoSignal, requests: seq<Request>, length: nat)
    requires Downloading(result, source, requests, length) && Done(requests) == length
    ensures result == source
  {
    forall p | 0 <= p < |result| ensures result[p] == source[p] {
    }
  }

  // ---------- What the device answers ----------

  /** Failures of a transfer that are up to the device. */
  predicate DeviceFault(e: UsrpError) {
    e.StreamerError? || e.Stalled? || e.NoEndOfBurst?
  }

  /** How many transfers of a loop are made when the device moves these amounts, call by call, and
      `left` samples are left to move. A device cannot move more than it is asked for. */
  function Transfers(grants: seq<nat>, left: nat): nat {
    if left == 0 || grants == [] then 0
    else 1 + Transfers(grants[1..], left - Min(grants[0], Min(left, PACKET_SIZE)))
  }

  /** How many samples are left when all amounts have been used up. */
  function LeftOver(grants: seq<nat>, left: nat): nat {
    if left == 0 || grants == [] then left
    else LeftOver(grants[1..], left - Min(grants[0], Min(left, PACKET_SIZE)))
  }

  /** A device that moves something in every transfer is done after as many as there are samples. */
  lemma {:induction false} PositiveGrantsSuffice(grants: seq<nat>, left: nat)
    requires AllPositive(grants) && left <= |grants|
    ensures LeftOver(grants, left) == 0 && Transfers(grants, left) <= left
  {
    if left > 0 {
      var left' := left - Min(grants[0], Min(left, PACKET_SIZE));
      PositiveGrantsSuffice(grants[1..], left');
    }
  }

  /** What the device has to say of one upload: how many samples it takes in each transfer, and
      whether it acknowledges them. */
  datatype UploadAnswer = UploadAnswer(grants: seq<nat>, acknowledged: bool)

  /** The failure of an upload of `total` samples that this answer stands for, if any. */
  function UploadFailure(a: UploadAnswer, total: nat): (e: Option<UsrpError>)
    ensures e == Some(Stalled) <==> LeftOver(a.grants, total) > 0
    ensures e == Some(StreamerError) <==> LeftOver(a.grants, total) == 0 && !a.acknowledged
    ensures e in {None, Some(Stalled), Some(StreamerError)}
  {
    if LeftOver(a.grants, total) > 0 then Some(Stalled)
    else if a.acknowledged then None
    else Some(StreamerError)
  }

  /** What the device has to say of one download: how many samples it gives in each transfer, which
      transfer it reports an error for, and whether it marks the end of the burst. */
  datatype DownloadAnswer = DownloadAnswer(grants: seq<nat>, errorAt: nat, endOfBurst: bool)

  /** The failure of a download of `total` samples that this answer stands for, if any. */
  function DownloadFailure(a: DownloadAnswer, total: nat): (e: Option<UsrpError>)
    ensures e == Some(StreamerError) <==> a.errorAt < Transfers(a.grants, total)
    ensures e == Some(Stalled) <==> Transfers(a.grants, total) <= a.errorAt && LeftOver(a.grants, total) > 0
    ensures e == None ==> LeftOver(a.grants, total) == 0 && (total > 0 ==> a.endOfBurst)
    ensures e == Some(NoEndOfBurst) ==> total > 0 && !a.endOfBurst && LeftOver(a.grants, total) == 0
    ensures e in {None, Some(StreamerError), Some(Stalled), Some(NoEndOfBurst)}
  {
    if a.errorAt < Transfers(a.grants, total) then Some(StreamerError)
    else if LeftOver(a.grants, total) > 0 then Some(Stalled)
    else if total > 0 && !a.endOfBurst then Some(NoEndOfBurst)
    else None
  }

  /** A device that moves something in every transfer, reports no error and marks the end of the
      burst causes no failure. */
  lemma HealthyDownload(a: DownloadAnswer, total: nat)
    requires AllPositive(a.grants) && total <= |a.grants| && total <= a.errorAt && a.endOfBurst
    ensures DownloadFailure(a, total) == None
  {
    PositiveGrantsSuffice(a.grants, total);
  }

  lemma HealthyUpload(a: UploadAnswer, total: nat)
    requires AllPositive(a.grants) && total <= |a.grants| && a.acknowledged
    ensures UploadFailure(a, total) == None
  {
    PositiveGrantsSuffice(a.grants, total);
  }

  class RfNocFullDuplexGraph {
    const hw: ReplayHardware
    var numTxStreams: nat
    var numRxStreams: nat

    constructor (hw: ReplayHardware, numAntennas: nat)
      ensures this.hw == hw && numTxStreams == numAntennas && numRxStreams == numAntennas
    {
      this.hw, numTxStreams, numRxStreams := hw, numAntennas, numAntennas;
    }

    method ConnectForUpload(numTx: nat)
      modifies this
      ensures numTxStreams == numTx && numRxStreams == old(numRxStreams)
    {
      numTxStreams := numTx;
    }

    method ConnectForStreaming(numTx: nat, numRx: nat) returns (r: Outcome)
      modifies this
      ensures r == if numTx == old(numTxStreams) then Pass else Fail(ChannelMismatch)
      ensures numTxStreams == old(numTxStreams)
      ensures numRxStreams == if r.Pass? then numRx else old(numRxStreams)
    {
      if numTx != numTxStreams {
        return Fail(ChannelMismatch);
      }
      numRxStreams := numRx;
      return Pass;
    }

    method ConnectForDownload(numRx: nat) returns (r: Outcome)
      ensures r == if numRx == numRxStreams then Pass else Fail(ChannelMismatch)
    {
      r := if numRx != numRxStreams then Fail(ChannelMismatch) else Pass;
    }

    /** Sends a signal to the record windows of its channels. When the device takes no more samples,
        the loop is still waiting. */
    method Upload(txSignal: MimoSignal, answer: UploadAnswer, ghost lo: nat, ghost hi: nat)
      returns (r: Outcome, requests: seq<Request>)
      requires |txSignal| > 0 && EqualLengths(txSignal, |txSignal[0]|)
      requires |txSignal| == numTxStreams ==>
                 && Windows(hw.device, |txSignal|, |txSignal[0]|, lo, hi)
                 && forall p | 0 <= p < |txSignal| :: hw.device.rec[p].fullness == 0
      modifies hw
      ensures |txSignal| != numTxStreams ==> r == Fail(ChannelMismatch) && requests == [] && hw.device == old(hw.device)
      ensures |txSignal| == numTxStreams ==>
                && SameBut(old(hw.device), hw.device, lo, hi)
                && Chain(requests, |txSignal[0]|)
                && Delivered(hw.device, txSignal, |txSignal|, Done(requests), Done(requests))
                && (r.Pass? ==> Done(requests) == |txSignal[0]|)
                && r == (match UploadFailure(answer, |txSignal[0]|)
                         case None => Pass
                         case Some(e) => Fail(e))
    {
      requests := [];
      if |txSignal| != numTxStreams {
        return Fail(ChannelMismatch), [];
      }
      UploadStarts(hw.device, txSignal, |txSignal[0]|, lo, hi);
      requests := SendSamples(txSignal, answer.grants, lo, hi);
      r := if Done(requests) < |txSignal[0]| then Fail(Stalled)
           else if answer.acknowledged then Pass else Fail(StreamerError);
    }

    /** Sends packet after packet until all samples are sent, or the device takes no more. */
    method SendSamples(txSignal: MimoSignal, grants: seq<nat>, ghost lo: nat, ghost hi: nat)
      returns (requests: seq<Request>)
      requires |txSignal| > 0 && Uploading(hw.device, hw.device, txSignal, [], |txSignal[0]|, lo, hi)
      modifies hw
      ensures Uploading(old(hw.device), hw.device, txSignal, requests, |txSignal[0]|, lo, hi)
      ensures Done(requests) + LeftOver(grants, |txSignal[0]|) == |txSignal[0]|
      ensures |requests| == Transfers(grants, |txSignal[0]|)
    {
      requests := [];
      var numSamples := |txSignal[0]|;
      var totalSamplesSent: nat := 0;
      while totalSamplesSent < numSamples && |requests| < |grants|
        invariant totalSamplesSent == Done(requests)
        invariant Sending(old(hw.device), hw.device, txSignal, requests, grants, numSamples, lo, hi)
        decreases |grants| - |requests|
      {
        var samplesToSend := Min(numSamples - totalSamplesSent, PACKET_SIZE);
        var samplesSent := Min(grants[|requests|], samplesToSend);
        var device := hw.device;
        PacketSent(old(hw.device), device, txSignal, requests, grants, numSamples, lo, hi);
        hw.device := device.Send(Buffers(txSignal, totalSamplesSent, totalSamplesSent + samplesSent), |txSignal|);
        requests := requests + [Request(totalSamplesSent, samplesToSend, samplesSent)];
        totalSamplesSent := totalSamplesSent + samplesSent;
      }
    }

    /** Fetches what the first output ports play. The hardware refuses ports whose window is not in
        memory. */
    method Download(numRxSamples: nat, answer: DownloadAnswer) returns (r: Result<MimoSignal>, requests: seq<Request>)
      ensures Chain(requests, numRxSamples)
      ensures r == if !Playable(hw.device, numRxStreams, numRxSamples) then Failure(BadWindow)
                   else match DownloadFailure(answer, numRxSamples)
                     case None => Success(StreamOut(hw.device, numRxStreams, numRxSamples))
                     case Some(e) => Failure(e)
    {
      requests := [];
      if !Playable(hw.device, numRxStreams, numRxSamples) {
        return Failure(BadWindow), requests;
      }
      var result := seq(numRxStreams, _ => Zeros(numRxSamples));
      if numRxSamples == 0 {
        assert result == StreamOut(hw.device, numRxStreams, numRxSamples);
        return Success(result), requests;
      }
      var error;
      result, requests, error := ReceiveSamples(numRxSamples, answer, result);
      if error {
        return Failure(StreamerError), requests;
      }
      if Done(requests) < numRxSamples {
        return Failure(Stalled), requests;
      }
      if !answer.endOfBurst {
        return Failure(NoEndOfBurst), requests;
      }
      DownloadComplete(result, StreamOut(hw.device, numRxStreams, numRxSamples), requests, numRxSamples);
      return Success(result), requests;
    }

    /** Receives packet after packet until all samples are there, the device gives no more, or an
        error is reported. */
    method ReceiveSamples(numRxSamples: nat, answer: DownloadAnswer, blank: MimoSignal)
      returns (result: MimoSignal, requests: seq<Request>, error: bool)
      requires Playable(hw.device, numRxStreams, numRxSamples)
      requires |blank| == numRxStreams && EqualLengths(blank, numRxSamples)
      ensures Downloading(result, StreamOut(hw.device, numRxStreams, numRxSamples), requests, numRxSamples)
      ensures error <==> answer.errorAt < Transfers(answer.grants, numRxSamples)
      ensures !error ==> Done(requests) + LeftOver(answer.grants, numRxSamples) == numRxSamples
    {
      requests := [];
      result := blank;
      var source := StreamOut(hw.device, numRxStreams, numRxSamples);
      var grants := answer.grants;
      var totalSamplesReceived: nat := 0;
      while totalSamplesReceived < numRxSamples && |requests| < |grants|
        invariant totalSamplesReceived == Done(requests) && |requests| <= answer.errorAt
        invariant Downloading(result, source, requests, numRxSamples)
        invariant GrantsAhead(grants, |requests|, numRxSamples, totalSamplesReceived)
        decreases |grants| - |requests|
      {
        var reqSamples := Min(numRxSamples - totalSamplesReceived, PACKET_SIZE);
        var numSamplesReceived := Min(grants[|requests|], reqSamples);
        DownloadStep(result, source, requests, numRxSamples, numSamplesReceived);
        GrantTaken(grants, |requests|, numRxSamples, totalSamplesReceived);
        result := Received(result, source, totalSamplesReceived, totalSamplesReceived + numSamplesReceived);
        requests := requests + [Request(totalSamplesReceived, reqSamples, numSamplesReceived)];
        totalSamplesReceived := totalSamplesReceived + numSamplesReceived;
        if |requests| - 1 == answer.errorAt {
          return result, requests, true;
        }
      }
      error := false;
    }
  }

  /** The state of an upload to a device that takes these amounts. */
  ghost predicate Sending(d0: Device, d: Device, signal: MimoSignal, requests: seq<Request>, grants: seq<nat>,
                          length: nat, lo: nat, hi: nat)
  {
    Uploading(d0, d, signal, requests, length, lo, hi) && GrantsAhead(grants, |requests|, length, Done(requests))
  }

  lemma PacketSent(d0: Device, d: Device, signal: MimoSignal, requests: seq<Request>, grants: seq<nat>,
                   length: nat, lo: nat, hi: nat)
    requires Sending(d0, d, signal, requests, grants, length, lo, hi)
    requires Done(requests) < length && |requests| < |grants|
    ensures var moved := Min(grants[|requests|], Min(length - Done(requests), PACKET_SIZE));
            Sending(d0, d.Send(Buffers(signal, Done(requests), Done(requests) + moved), |signal|), signal,
                    requests + [NextRequest(requests, length, moved)], grants, length, lo, hi)
  {
    UploadStep(d0, d, signal, requests, length, lo, hi,
               Min(grants[|requests|], Min(length - Done(requests), PACKET_SIZE)));
    GrantTaken(grants, |requests|, length, Done(requests));
  }

  /** After the first k transfers, which have moved `moved` of `total` samples. */
  ghost predicate GrantsAhead(grants: seq<nat>, k: nat, total: nat, moved: nat) {
    && k <= |grants| && moved <= total
    && Transfers(grants, total) == k + Transfers(grants[k..], total - moved)
    && LeftOver(grants, total) == LeftOver(grants[k..], total - moved)
  }

  lemma GrantTaken(grants: seq<nat>, k: nat, total: nat, moved: nat)
    requires GrantsAhead(grants, k, total, moved) && k < |grants| && moved < total
    ensures GrantsAhead(grants, k + 1, total, moved + Min(grants[k], Min(total - moved, PACKET_SIZE)))
  {
    assert grants[k..][0] == grants[k] && grants[k..][1..] == grants[k + 1..];
  }

  predicate AllPositive(grants: seq<nat>) {
    forall k | 0 <= k < |grants| :: grants[k] > 0
  }

  function Min(a: nat, b: nat): nat {
    if a < b then a else b
  }
}
