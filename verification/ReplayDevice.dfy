/** The replay hardware behind `ReplayBlockInterface` (uhd_wrapper/lib/replay_config.hpp): one
    byte memory, and per port a record window and a play window. Foreign to the repository, so it
    is modelled as a value with the effects its driver documents. */
module ReplayDevice {
  import opened Samples

  /** Bytes offset .. offset + size; `fullness` of them are recorded. */
  datatype RecordPort = RecordPort(offset: nat, size: nat, fullness: nat)

  datatype PlayPort = PlayPort(offset: nat, size: nat)

  datatype Device = Device(mem: seq<Byte>, rec: seq<RecordPort>, play: seq<PlayPort>) {

    /** Start recording into a fresh window. */
    function Record(offset: nat, size: nat, port: nat): Device
      requires port < |rec|
    {
      this.(rec := rec[port := RecordPort(offset, size, 0)])
    }

    /** Forget what was recorded, keep the window. */
    function RecordRestart(port: nat): Device
      requires port < |rec|
    {
      this.(rec := rec[port := rec[port].(fullness := 0)])
    }

    function ConfigPlay(offset: nat, size: nat, port: nat): Device
      requires port < |play|
    {
      this.(play := play[port := PlayPort(offset, size)])
    }

    /** A sample arrives at an input port. A full window takes nothing more. */
    function Deliver(port: nat, x: Sample): Device
      requires port < |rec|
    {
      var w := rec[port];
      var a := w.offset + w.fullness;
      if w.fullness + SAMPLE_SIZE <= w.size && a + SAMPLE_SIZE <= |mem| then
        this.(mem := WriteSample(mem, a, x), rec := rec[port := w.(fullness := w.fullness + SAMPLE_SIZE)])
      else
        this
    }

    function DeliverAll(port: nat, xs: seq<Sample>): (d: Device)
      requires port < |rec|
      ensures |d.rec| == |rec|
      decreases |xs|
    {
      if xs == [] then this else Deliver(port, xs[0]).DeliverAll(port, xs[1..])
    }

    /** One buffer of each of the first c channels is sent to its input port. */
    function Send(buffers: seq<seq<Sample>>, c: nat): (d: Device)
      requires c <= |buffers| && c <= |rec|
      ensures |d.rec| == |rec|
    {
      if c == 0 then this else Send(buffers, c - 1).DeliverAll(c - 1, buffers[c - 1])
    }

    /** Sample n of what an output port plays: past the end of the window it wraps around. */
    function PlayedSample(port: nat, n: nat): Sample
      requires port < |play| && play[port].size >= SAMPLE_SIZE
      requires play[port].offset + play[port].size <= |mem|
    {
      ReadSample(mem, play[port].offset + SAMPLE_SIZE * (n % (play[port].size / SAMPLE_SIZE)))
    }

    /** The bytes lo <= a < hi hold all of the window of an input port. */
    ghost predicate RecordsWithin(port: nat, lo: nat, hi: nat)
      requires port < |rec|
    {
      && rec[port].fullness <= rec[port].size
      && lo <= rec[port].offset && rec[port].offset + rec[port].size <= hi
    }
  }

  /** The windows of two input ports do not overlap. */
  ghost predicate RecApart(d: Device, p: nat, q: nat)
    requires p < |d.rec| && q < |d.rec|
  {
    || d.rec[p].offset + d.rec[p].size <= d.rec[q].offset
    || d.rec[q].offset + d.rec[q].size <= d.rec[p].offset
  }

  /** The window of an input port has `size` bytes and lies in lo .. hi. */
  ghost predicate RecFits(d: Device, p: nat, size: nat, lo: nat, hi: nat)
    requires p < |d.rec|
  {
    d.rec[p].size == size && lo <= d.rec[p].offset && d.rec[p].offset + d.rec[p].size <= hi
  }

  /** Same ports, windows and played windows; memory changed at most in lo <= a < hi. */
  ghost predicate SameBut(d: Device, d': Device, lo: nat, hi: nat) {
    && AgreeOutside(d.mem, d'.mem, lo, hi)
    && d'.play == d.play
    && |d'.rec| == |d.rec|
    && forall p | 0 <= p < |d.rec| :: d'.rec[p].offset == d.rec[p].offset && d'.rec[p].size == d.rec[p].size
  }

  lemma SameButTrans(d0: Device, d1: Device, d2: Device, lo: nat, hi: nat)
    requires SameBut(d0, d1, lo, hi) && SameBut(d1, d2, lo, hi)
    ensures SameBut(d0, d2, lo, hi)
  {
  }

  lemma DeliverFrame(d: Device, port: nat, x: Sample, lo: nat, hi: nat)
    requires port < |d.rec| && d.RecordsWithin(port, lo, hi)
    ensures var d' := d.Deliver(port, x);
            && SameBut(d, d', lo, hi) && d'.RecordsWithin(port, lo, hi)
            && forall p | 0 <= p < |d.rec| && p != port :: d'.rec[p] == d.rec[p]
  {
  }

  /** Whatever arrives at an input port stays inside the window of that port. */
  lemma {:induction false} DeliverAllFrame(d: Device, port: nat, xs: seq<Sample>, lo: nat, hi: nat)
    requires port < |d.rec| && d.RecordsWithin(port, lo, hi)
    ensures var d' := d.DeliverAll(port, xs);
            && SameBut(d, d', lo, hi) && d'.RecordsWithin(port, lo, hi)
            && forall p | 0 <= p < |d.rec| && p != port :: d'.rec[p] == d.rec[p]
    decreases |xs|
  {
    if xs != [] {
      DeliverFrame(d, port, xs[0], lo, hi);
      DeliverAllFrame(d.Deliver(port, xs[0]), port, xs[1..], lo, hi);
    }
  }

  /** The window of an input port holds `xs` and is filled exactly up to them. */
  ghost predicate Filled(d: Device, port: nat, xs: seq<Sample>) {
    && port < |d.rec|
    && d.rec[port].fullness == SAMPLE_SIZE * |xs|
    && d.rec[port].offset + d.rec[port].size <= |d.mem|
    && Holds(d.mem, d.rec[port].offset, xs)
  }

  lemma DeliverFills(d: Device, port: nat, xs: seq<Sample>, x: Sample)
    requires Filled(d, port, xs) && SAMPLE_SIZE * (|xs| + 1) <= d.rec[port].size
    ensures Filled(d.Deliver(port, x), port, xs + [x])
    ensures d.Deliver(port, x).rec[port].size == d.rec[port].size
  {
    HoldsAppend(d.mem, d.rec[port].offset, xs, x);
  }

  lemma {:induction false} DeliverAllFills(d: Device, port: nat, xs: seq<Sample>, ys: seq<Sample>)
    requires Filled(d, port, xs) && SAMPLE_SIZE * (|xs| + |ys|) <= d.rec[port].size
    ensures Filled(d.DeliverAll(port, ys), port, xs + ys)
    decreases |ys|
  {
    if ys == [] {
      assert xs + ys == xs;
    } else {
      DeliverFills(d, port, xs, ys[0]);
      DeliverAllFills(d.Deliver(port, ys[0]), port, xs + [ys[0]], ys[1..]);
      assert xs + [ys[0]] + ys[1..] == xs + ys;
    }
  }

  /** Delivering to one port leaves what another port's disjoint window holds. */
  lemma DeliverAllKeeps(d: Device, port: nat, ys: seq<Sample>, other: nat, xs: seq<Sample>)
    requires port < |d.rec| && other < |d.rec| && other != port
    requires d.rec[port].fullness <= d.rec[port].size
    requires Filled(d, other, xs) && SAMPLE_SIZE * |xs| <= d.rec[other].size
    requires RecApart(d, port, other)
    ensures Filled(d.DeliverAll(port, ys), other, xs)
  {
    var lo, hi := d.rec[port].offset, d.rec[port].offset + d.rec[port].size;
    DeliverAllFrame(d, port, ys, lo, hi);
    HoldsFrame(d.mem, d.DeliverAll(port, ys).mem, lo, hi, d.rec[other].offset, xs);
  }

  /** A window that holds `xs` plays them over and over. */
  lemma PlaysCyclic(d: Device, port: nat, xs: seq<Sample>, n: nat)
    requires port < |d.play| && |xs| > 0
    requires d.play[port].size == SAMPLE_SIZE * |xs| && Holds(d.mem, d.play[port].offset, xs)
    ensures d.PlayedSample(port, n) == xs[n % |xs|]
  {
  }

  /** The hardware, shared by the replay configuration and the signal graph. */
  class ReplayHardware {
    var device: Device

    constructor (device: Device)
      ensures this.device == device
    {
      this.device := device;
    }
  }
}
