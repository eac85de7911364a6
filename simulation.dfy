/** The block-pipelined driver of `oskar_sim_interferometer`, run
    sequentially: a shared work counter hands (chunk, time) units of a block
    to the devices in any interleaving, each device accumulates the units it
    takes into its own visibility block, the blocks are copied into host
    slot `b % 2`, and the output step folds the other slot of every device
    into device 0 and writes it. The physics (Jones matrices, correlation,
    horizon clip, noise generation) is given by function parameters; the
    visibilities are exact integers. */
module Simulation {
  import opened Status
  import opened Blocks
  import opened UnitSums
  import opened DoubleBuffer

  type Pos = n: nat | n > 0 witness 1

  /** The shared `chunk_time_index`. */
  class WorkCounter {
    var next: nat

    constructor ()
      ensures next == 0
    {
      next := 0;
    }

    /** The critical section `i_chunk_time = (*chunk_time_index)++`. */
    method Claim() returns (unit: nat)
      modifies this
      ensures unit == old(next) && next == old(next) + 1
    {
      unit := next;
      next := next + 1;
    }

    /** Thread 0's reset between blocks. */
    method Reset()
      modifies this
      ensures next == 0
    {
      next := 0;
    }
  }

  /** A visibility block: its first simulation time, its number of times,
      and its cross- and auto-correlation arrays. */
  datatype VisBlock = VisBlock(startTime: nat, numTimes: int, xc: seq<int>, ac: seq<int>)

  function Zeros(n: nat): (z: seq<int>)
    ensures |z| == n && forall i :: 0 <= i < n ==> z[i] == 0
  {
    seq(n, _ => 0)
  }

  /** `oskar_mem_add(a, a, b)`. */
  function AddArrays(a: seq<int>, b: seq<int>): (r: seq<int>)
    requires |a| == |b|
    ensures |r| == |a| && forall k :: 0 <= k < |r| ==> r[k] == a[k] + b[k]
  {
    seq(|a|, k requires 0 <= k < |a| => a[k] + b[k])
  }

  /** Adding `add` into the window of `xc` that starts at `off`: the
      accumulation through an alias of that window. */
  function AddAt(xc: seq<int>, off: nat, add: seq<int>): (r: seq<int>)
    requires off + |add| <= |xc|
    ensures |r| == |xc|
    ensures forall k :: 0 <= k < |r| ==> r[k] == if off <= k < off + |add| then xc[k] + add[k - off] else xc[k]
  {
    xc[..off] + seq(|add|, j requires 0 <= j < |add| => xc[off + j] + add[j]) + xc[off + |add|..]
  }

  /** The sum of a list of values. */
  function Total(xs: seq<int>): int
  {
    if |xs| == 0 then 0 else Total(xs[..|xs| - 1]) + xs[|xs| - 1]
  }

  /** The auto-correlations (`auto`) or cross-correlations of a block. */
  function Arr(blk: VisBlock, auto: bool): seq<int>
  {
    if auto then blk.ac else blk.xc
  }

  /** Value `k` of slot `slot` of every device, device by device. */
  function Column(blocks: seq<seq<VisBlock>>, slot: nat, k: nat, auto: bool): (col: seq<int>)
    ensures |col| == |blocks|
    ensures forall d :: 0 <= d < |blocks| && slot < |blocks[d]| && k < |Arr(blocks[d][slot], auto)| ==>
      col[d] == Arr(blocks[d][slot], auto)[k]
  {
    seq(|blocks|, d requires 0 <= d < |blocks| =>
      if slot < |blocks[d]| && k < |Arr(blocks[d][slot], auto)| then Arr(blocks[d][slot], auto)[k] else 0)
  }

  /** Every device's block copied into its host block `slot`
      (`oskar_vis_block_copy`). */
  function CopyInto(host: seq<seq<VisBlock>>, slot: nat, blocks: seq<VisBlock>): (r: seq<seq<VisBlock>>)
    requires |blocks| == |host| && forall d :: 0 <= d < |host| ==> slot < |host[d]|
    ensures |r| == |host|
    ensures forall d :: 0 <= d < |r| ==> r[d] == host[d][slot := blocks[d]]
  {
    seq(|host|, d requires 0 <= d < |host| => host[d][slot := blocks[d]])
  }

  lemma TotalStep(xs: seq<int>, e: nat)
    requires e < |xs|
    ensures Total(xs[..e + 1]) == Total(xs[..e]) + xs[e]
  {
    assert xs[..e + 1][..e] == xs[..e];
  }

  /** Values that are the sums of lists of units total the sum over all
      the lists. */
  lemma {:induction false} TotalOfSums(col: seq<int>, lists: seq<seq<nat>>, f: nat -> int)
    requires |col| == |lists|
    requires forall d :: 0 <= d < |col| ==> col[d] == Sum(lists[d], f)
    ensures Total(col) == SumEach(lists, f)
  {
    if |col| > 0 {
      TotalOfSums(col[..|col| - 1], lists[..|lists| - 1], f);
    }
  }

  lemma {:induction false} TotalOfZeros(col: seq<int>)
    requires forall d :: 0 <= d < |col| ==> col[d] == 0
    ensures Total(col) == 0
  {
    if |col| > 0 {
      TotalOfZeros(col[..|col| - 1]);
    }
  }

  /** The chunk a unit belongs to. */
  function ChunkOf(u: nat, ntb: Pos): nat
  {
    Decompose(u, ntb).0
  }

  /** The chunks a device copies while it works through `units` in order:
      one copy each time the chunk differs from the previous unit's. */
  function CopiedChunks(units: seq<nat>, ntb: Pos): seq<nat>
  {
    if |units| == 0 then []
    else
      var prev := CopiedChunks(units[..|units| - 1], ntb);
      var c := ChunkOf(units[|units| - 1], ntb);
      if |units| > 1 && ChunkOf(units[|units| - 2], ntb) == c then prev else prev + [c]
  }

  /** Taking one more unit copies its chunk unless the previous unit had
      the same chunk. */
  lemma CopiedAppend(units: seq<nat>, u: nat, ntb: Pos)
    ensures CopiedChunks(units + [u], ntb)
         == if |units| > 0 && ChunkOf(units[|units| - 1], ntb) == ChunkOf(u, ntb)
            then CopiedChunks(units, ntb) else CopiedChunks(units, ntb) + [ChunkOf(u, ntb)]
  {
    var units' := units + [u];
    assert units'[..|units|] == units;
    if |units| > 0 {
      assert units'[|units'| - 2] == units[|units| - 1];
    }
  }

  /** A device taking units in increasing order copies strictly increasing
      chunks: no chunk is copied twice in a block; and the last chunk copied
      is the chunk of the last unit. */
  lemma {:induction false} CopiesIncrease(units: seq<nat>, ntb: Pos)
    requires Increasing(units)
    ensures Increasing(CopiedChunks(units, ntb))
    ensures |units| > 0 ==>
      && |CopiedChunks(units, ntb)| > 0
      && CopiedChunks(units, ntb)[|CopiedChunks(units, ntb)| - 1] == ChunkOf(units[|units| - 1], ntb)
  {
    if |units| > 1 {
      var init := units[..|units| - 1];
      CopiesIncrease(init, ntb);
      ChunkMonotone(units[|units| - 2], units[|units| - 1], ntb);
    }
  }

  /** Every chunk copied is the chunk of a unit taken, and every unit's
      chunk is copied. */
  lemma {:induction false} CopiesCover(units: seq<nat>, ntb: Pos)
    ensures forall c :: c in CopiedChunks(units, ntb) <==> exists u :: u in units && ChunkOf(u, ntb) == c
  {
    if |units| > 0 {
      var init := units[..|units| - 1];
      var last := units[|units| - 1];
      CopiesCover(init, ntb);
      assert units == init + [last];
      if |units| > 1 {
        assert units[|units| - 2] in init;
      }
    }
  }

  class Simulator {
    const totalTimes: nat
    const blockLength: Pos
    const numChannels: Pos
    const numBaselines: Pos
    const numChunks: nat
    const numDevices: Pos
    const acLength: nat
    /** Whether sky chunk `c`, after the horizon clip at simulation time
        `t`, holds any source. */
    const hasSources: (nat, nat) -> bool
    /** What `oskar_correlate` adds for (chunk, simulation time, channel,
        baseline). */
    const corr: (nat, nat, nat, nat) -> int
    /** The status one unit's work leaves (sky copy, clip, Jones, correlate). */
    const unitStatus: (nat, nat) -> Status
    const noiseEnabled: bool
    /** System noise for (block index, value index), from the noise seed. */
    const xcNoise: (nat, nat) -> int
    const acNoise: (nat, nat) -> int
    /** The status `oskar_vis_block_copy` of block `b` to host memory
        reports. */
    const hostCopyStatus: nat -> Status
    /** The status the fold's `oskar_mem_add` calls and the uvw evaluation
        of block `i` leave. */
    const uvwStatus: nat -> Status
    /** The status the noise addition and the file output of block `i`
        leave. */
    const writeStatus: nat -> Status
    const counter: WorkCounter

    /** Each device's block (`d->vis_block`). */
    var deviceBlocks: seq<VisBlock>
    /** Each device's two host blocks (`d->vis_block_cpu[0..1]`). */
    var hostBlocks: seq<seq<VisBlock>>
    var status: Status
    /** The blocks written to the output files, in order. */
    var written: seq<VisBlock>
    /** The compute and write calls of the block loop. */
    ghost var events: seq<Event>

    /** Each device's `previous_chunk_index` and whether its unit loop has
        ended, during the compute of one block. */
    var previousChunk: seq<int>
    var finished: seq<bool>
    /** The units each device has simulated, and the chunks it has copied,
        in the current block. */
    ghost var processed: seq<seq<nat>>
    ghost var copied: seq<seq<nat>>

    /** `set_up_device_data_` for every device: zeroed device and host
        blocks, status 0, nothing written. */
    constructor (totalTimes: nat, blockLength: Pos, numChannels: Pos, numBaselines: Pos,
                 numChunks: nat, numDevices: Pos, acLength: nat,
                 hasSources: (nat, nat) -> bool, corr: (nat, nat, nat, nat) -> int,
                 unitStatus: (nat, nat) -> Status, noiseEnabled: bool,
                 xcNoise: (nat, nat) -> int, acNoise: (nat, nat) -> int,
                 hostCopyStatus: nat -> Status, uvwStatus: nat -> Status, writeStatus: nat -> Status)
      ensures this.totalTimes == totalTimes && this.blockLength == blockLength
      ensures this.numChannels == numChannels && this.numBaselines == numBaselines
      ensures this.numChunks == numChunks && this.numDevices == numDevices && this.acLength == acLength
      ensures this.hasSources == hasSources && this.corr == corr && this.unitStatus == unitStatus
      ensures this.noiseEnabled == noiseEnabled && this.xcNoise == xcNoise && this.acNoise == acNoise
      ensures this.hostCopyStatus == hostCopyStatus && this.uvwStatus == uvwStatus
      ensures this.writeStatus == writeStatus
      ensures HostOk() && fresh(counter) && counter.next == 0
      ensures status == Ok && written == [] && events == []
    {
      this.totalTimes := totalTimes;
      this.blockLength := blockLength;
      this.numChannels := numChannels;
      this.numBaselines := numBaselines;
      this.numChunks := numChunks;
      this.numDevices := numDevices;
      this.acLength := acLength;
      this.hasSources := hasSources;
      this.corr := corr;
      this.unitStatus := unitStatus;
      this.noiseEnabled := noiseEnabled;
      this.xcNoise := xcNoise;
      this.acNoise := acNoise;
      this.hostCopyStatus := hostCopyStatus;
      this.uvwStatus := uvwStatus;
      this.writeStatus := writeStatus;
      counter := new WorkCounter();
      var empty := VisBlock(0, 0, Zeros(numBaselines * numChannels * blockLength), Zeros(acLength));
      deviceBlocks := seq(numDevices, _ => empty);
      hostBlocks := seq(numDevices, _ => [empty, empty]);
      status := Ok;
      written := [];
      events := [];
      previousChunk := seq(numDevices, _ => -1);
      finished := seq(numDevices, _ => true);
      processed := seq(numDevices, _ => []);
      copied := seq(numDevices, _ => []);
    }

    /** Values in a block: `num_baselines * num_channels * block_length`. */
    function Capacity(): nat
    {
      numBaselines * numChannels * blockLength
    }

    function NumBlocks(): nat
    {
      NumVisBlocks(totalTimes, blockLength)
    }

    /** The number of times in block `b` (0 past the last block). */
    function TimesIn(b: nat): nat
    {
      var n := NumTimesBlock(b, blockLength, totalTimes);
      if n > 0 then n else 0
    }

    /** The work units of block `b`. */
    function Units(b: nat): nat
    {
      TimesIn(b) * numChunks
    }

    /** The (block time, channel, baseline) of value `k` of a block. */
    function TimeOf(k: nat): nat
    {
      (k / numBaselines) / numChannels
    }

    function ChannelOf(k: nat): nat
    {
      (k / numBaselines) % numChannels
    }

    function BaselineOf(k: nat): nat
    {
      k % numBaselines
    }

    predicate Shaped(blk: VisBlock)
    {
      |blk.xc| == Capacity() && |blk.ac| == acLength
    }

    /** Every device has two host blocks of the block shape. */
    ghost predicate HostShaped(host: seq<seq<VisBlock>>)
    {
      && |host| == numDevices
      && forall d :: 0 <= d < numDevices ==> |host[d]| == 2 && Shaped(host[d][0]) && Shaped(host[d][1])
    }

    ghost predicate HostOk()
      reads this`hostBlocks
    {
      HostShaped(hostBlocks)
    }

    /** What the unit of chunk `c` at block time `t` (simulation time
        `absT`, `ntb` times in the block) adds at value `k`: the correlation
        for `k`'s channel and baseline when `k` lies in time `t` and the
        clipped chunk has sources. */
    function UnitValue(c: nat, t: nat, absT: nat, ntb: nat, k: nat): int
    {
      if hasSources(c, absT) && t < ntb && TimeOf(k) == t then
        corr(c, absT, ChannelOf(k), BaselineOf(k))
      else 0
    }

    /** What unit `u` of block `b` adds at value `k`. */
    function Contribution(b: nat, u: nat, k: nat): int
    {
      if TimesIn(b) == 0 then 0
      else
        var ct := Decompose(u, TimesIn(b));
        UnitValue(ct.0, ct.1, BlockStart(b, blockLength) + ct.1, TimesIn(b), k)
    }

    function Contrib(b: nat, k: nat): nat -> int
    {
      (u: nat) => Contribution(b, u, k)
    }

    /** Value `k` of block `b` when every unit of the block is simulated
        once. */
    function Expected(b: nat, k: nat): int
    {
      Sum(Range(Units(b)), Contrib(b, k))
    }

    function NoiseXc(i: nat, k: nat): int
    {
      if noiseEnabled then xcNoise(i, k) else 0
    }

    function NoiseAc(i: nat, k: nat): int
    {
      if noiseEnabled then acNoise(i, k) else 0
    }

    /** Block `i` summed over its units, before any noise: the expected
        cross-correlations and zero auto-correlations. */
    function SummedBlock(i: nat): VisBlock
    {
      VisBlock(BlockStart(i, blockLength), NumTimesBlock(i, blockLength, totalTimes),
               seq(Capacity(), (k: int) requires 0 <= k => Expected(i, k)),
               Zeros(acLength))
    }

    /** The block the run should write as block `i`. */
    function ExpectedBlock(i: nat): VisBlock
    {
      VisBlock(BlockStart(i, blockLength), NumTimesBlock(i, blockLength, totalTimes),
               seq(Capacity(), (k: int) requires 0 <= k => Expected(i, k) + NoiseXc(i, k)),
               seq(acLength, (k: int) requires 0 <= k => NoiseAc(i, k)))
    }

    /** Within the slice of (t, ch), the position is the baseline. */
    lemma SliceBaseline(t: nat, ch: nat, k: nat)
      requires SliceOffset(numBaselines, numChannels, t, ch) <= k < SliceOffset(numBaselines, numChannels, t, ch) + numBaselines
      ensures k - SliceOffset(numBaselines, numChannels, t, ch) == BaselineOf(k)
    {
      var slice := numChannels * t + ch;
      var off := SliceOffset(numBaselines, numChannels, t, ch);
      assert off == slice * numBaselines;
      UniqueDivision(k / numBaselines, k % numBaselines, slice, k - off, numBaselines);
    }

    /** The correlations `oskar_correlate` adds to the baselines of one
        (time, channel) slice. */
    function Correlations(c: nat, absT: nat, ch: nat): (v: seq<int>)
      ensures |v| == numBaselines
    {
      seq(numBaselines, (j: int) requires 0 <= j => corr(c, absT, ch, j))
    }

    /** `sim_baselines_` for one channel: nothing when the clipped chunk
        has no sources or `t` is past the block's times, otherwise the
        correlations added into the (t, ch) slice of the block. */
    function SimBaselines(xc: seq<int>, c: nat, t: nat, absT: nat, ch: nat, ntb: nat): (r: seq<int>)
      requires |xc| == Capacity() && ch < numChannels && ntb <= blockLength
      ensures |r| == |xc|
      ensures forall k :: 0 <= k < |r| ==>
        r[k] == xc[k] + (if ChannelOf(k) == ch then UnitValue(c, t, absT, ntb, k) else 0)
    {
      if !hasSources(c, absT) then xc
      else if t >= ntb then xc
      else
        var off := SliceOffset(numBaselines, numChannels, t, ch);
        SliceInBlock(numBaselines, numChannels, blockLength, t, ch);
        var r := AddAt(xc, off, Correlations(c, absT, ch));
        assert forall k :: 0 <= k < |r| ==>
          r[k] == xc[k] + (if ChannelOf(k) == ch then UnitValue(c, t, absT, ntb, k) else 0) by {
          forall k | 0 <= k < |r|
            ensures r[k] == xc[k] + (if ChannelOf(k) == ch then UnitValue(c, t, absT, ntb, k) else 0)
          {
            SliceMembership(numBaselines, numChannels, t, ch, k);
            if off <= k < off + numBaselines {
              SliceBaseline(t, ch, k);
            }
          }
        }
        r
    }

    /** The channel loop of one work unit: every channel's slice gets the
        unit's correlations. */
    method SimUnit(xc: seq<int>, c: nat, t: nat, absT: nat, ntb: nat) returns (r: seq<int>)
      requires |xc| == Capacity() && ntb <= blockLength
      ensures |r| == |xc|
      ensures forall k :: 0 <= k < |r| ==> r[k] == xc[k] + UnitValue(c, t, absT, ntb, k)
    {
      r := xc;
      var i := 0;
      while i < numChannels
        invariant 0 <= i <= numChannels && |r| == |xc|
        invariant forall k :: 0 <= k < |r| ==>
          r[k] == xc[k] + (if ChannelOf(k) < i then UnitValue(c, t, absT, ntb, k) else 0)
      {
        r := SimBaselines(r, c, t, absT, i, ntb);
        i := i + 1;
      }
    }

    function Min(a: nat, b: nat): nat
    {
      if a < b then a else b
    }

    /** The chunk a device last copied, in the terms of
        `previous_chunk_index` (-1 before the first unit). */
    function LastChunk(units: seq<nat>, ntb: Pos): int
    {
      if |units| == 0 then -1 else ChunkOf(units[|units| - 1], ntb)
    }

    /** What unit `u` of block `b` adds to each value. */
    function UnitArray(b: nat, u: nat): (a: seq<int>)
      ensures |a| == Capacity()
      ensures forall k :: 0 <= k < |a| ==> a[k] == Contribution(b, u, k)
    {
      seq(Capacity(), (k: int) requires 0 <= k => Contribution(b, u, k))
    }

    /** The values of a cleared block after the units `units` of block `b`
        are simulated into it, in order. */
    function Accumulated(b: nat, units: seq<nat>): (xc: seq<int>)
      ensures |xc| == Capacity()
    {
      if |units| == 0 then Zeros(Capacity())
      else AddArrays(Accumulated(b, units[..|units| - 1]), UnitArray(b, units[|units| - 1]))
    }

    lemma AccumulatedAppend(b: nat, units: seq<nat>, u: nat)
      ensures Accumulated(b, units + [u]) == AddArrays(Accumulated(b, units), UnitArray(b, u))
    {
      assert (units + [u])[..|units|] == units;
    }

    /** Each value of the accumulated block is the sum of what the units add
        there. */
    lemma {:induction false} AccumulatedSum(b: nat, units: seq<nat>, k: nat)
      requires k < Capacity()
      ensures Accumulated(b, units)[k] == Sum(units, Contrib(b, k))
    {
      if |units| > 0 {
        AccumulatedSum(b, units[..|units| - 1], k);
        assert Contrib(b, k)(units[|units| - 1]) == Contribution(b, units[|units| - 1], k);
      }
    }

    /** The state of one device while block `b` is computed, after `next`
        claims in all: its block holds the sum of the units it has
        simulated, which it took in increasing order from the counter, and
        it has copied exactly the chunk changes of those units. */
    ghost predicate DeviceOk(b: nat, next: nat, blk: VisBlock, units: seq<nat>, prev: int, copies: seq<nat>)
    {
      && b < NumBlocks()
      && Shaped(blk)
      && Increasing(units)
      && (|units| > 0 ==> units[|units| - 1] < next)
      && blk.startTime == BlockStart(b, blockLength)
      && blk.numTimes == NumTimesBlock(b, blockLength, totalTimes)
      && blk.ac == Zeros(acLength)
      && blk.xc == Accumulated(b, units)
      && copies == CopiedChunks(units, TimesIn(b))
      && prev == LastChunk(units, TimesIn(b))
    }

    /** Later claims by other devices keep a device's state. */
    lemma DeviceOkLater(b: nat, next: nat, next': nat, blk: VisBlock, units: seq<nat>, prev: int, copies: seq<nat>)
      requires DeviceOk(b, next, blk, units, prev, copies) && next <= next'
      ensures DeviceOk(b, next', blk, units, prev, copies)
    {
    }

    /** Simulating the unit just claimed keeps a device's state. */
    lemma DeviceOkStep(b: nat, u: nat, blk: VisBlock, units: seq<nat>, prev: int, copies: seq<nat>,
                       xc: seq<int>)
      requires DeviceOk(b, u, blk, units, prev, copies) && u < Units(b)
      requires |xc| == Capacity()
      requires forall k :: 0 <= k < Capacity() ==> xc[k] == blk.xc[k] + Contribution(b, u, k)
      ensures var c := ChunkOf(u, TimesIn(b));
        DeviceOk(b, u + 1, blk.(xc := xc), units + [u], c,
                 if c != prev then copies + [c] else copies)
    {
      var units' := units + [u];
      var ntb: Pos := TimesIn(b);
      AccumulatedAppend(b, units, u);
      assert xc == Accumulated(b, units');
      IncreasingAppend(units, u);
      CopiedAppend(units, u, ntb);
    }

    /** The state of device `d`, picked out of the devices' values. */
    ghost predicate DeviceAt(b: nat, next: nat, blocks: seq<VisBlock>, units: seq<seq<nat>>,
                             prev: seq<int>, copies: seq<seq<nat>>, d: nat)
      requires d < |blocks| && d < |units| && d < |prev| && d < |copies|
    {
      DeviceOk(b, next, blocks[d], units[d], prev[d], copies[d])
    }

    /** Every device's state, given as values. */
    ghost predicate DevicesOk(b: nat, next: nat, blocks: seq<VisBlock>, units: seq<seq<nat>>,
                              prev: seq<int>, copies: seq<seq<nat>>)
    {
      && |blocks| == numDevices && |units| == numDevices && |prev| == numDevices && |copies| == numDevices
      && forall d :: 0 <= d < numDevices ==> DeviceAt(b, next, blocks, units, prev, copies, d)
    }

    lemma DevicesLater(b: nat, u: nat, blocks: seq<VisBlock>, units: seq<seq<nat>>,
                       prev: seq<int>, copies: seq<seq<nat>>)
      requires DevicesOk(b, u, blocks, units, prev, copies)
      ensures DevicesOk(b, u + 1, blocks, units, prev, copies)
    {
      var next := u + 1;
      forall e | 0 <= e < numDevices
        ensures DeviceAt(b, next, blocks, units, prev, copies, e)
      {
        assert DeviceAt(b, u, blocks, units, prev, copies, e);
        DeviceOkLater(b, u, u + 1, blocks[e], units[e], prev[e], copies[e]);
      }
    }

    lemma DevicesStep(b: nat, u: nat, blocks: seq<VisBlock>, units: seq<seq<nat>>,
                      prev: seq<int>, copies: seq<seq<nat>>, d: nat, xc: seq<int>)
      requires DevicesOk(b, u, blocks, units, prev, copies) && d < numDevices && u < Units(b)
      requires |xc| == |blocks[d].xc| == Capacity()
      requires forall k :: 0 <= k < Capacity() ==> xc[k] == blocks[d].xc[k] + Contribution(b, u, k)
      ensures var c := ChunkOf(u, TimesIn(b));
        DevicesOk(b, u + 1, blocks[d := blocks[d].(xc := xc)], units[d := units[d] + [u]],
                  prev[d := c], if c != prev[d] then copies[d := copies[d] + [c]] else copies)
    {
      var c := ChunkOf(u, TimesIn(b));
      var blocks', units', prev' := blocks[d := blocks[d].(xc := xc)], units[d := units[d] + [u]], prev[d := c];
      var copies' := if c != prev[d] then copies[d := copies[d] + [c]] else copies;
      var next := u + 1;
      forall e | 0 <= e < numDevices
        ensures DeviceAt(b, next, blocks', units', prev', copies', e)
      {
        assert DeviceAt(b, u, blocks, units, prev, copies, e);
        if e == d {
          DeviceOkStep(b, u, blocks[d], units[d], prev[d], copies[d], xc);
        } else {
          DeviceOkLater(b, u, u + 1, blocks[e], units[e], prev[e], copies[e]);
        }
      }
    }

    /** The state of all devices while block `b` is computed, after `next`
        claims, given as values: each device's block, units, previous chunk,
        chunk copies and whether its loop has ended. While the status is 0,
        the units simulated so far are exactly the units claimed below the
        bound, each once; a device whose loop has ended saw the bound or a
        nonzero status. */
    ghost predicate StageOk(b: nat, next: nat, st: Status, blocks: seq<VisBlock>, units: seq<seq<nat>>,
                            prev: seq<int>, copies: seq<seq<nat>>, done: seq<bool>)
    {
      && b < NumBlocks()
      && |done| == numDevices
      && (st == Ok ==> Partition(units, Min(next, Units(b))))
      && (forall d :: 0 <= d < numDevices && done[d] ==> next >= Units(b) || st != Ok)
      && DevicesOk(b, next, blocks, units, prev, copies)
    }

    /** A device leaving its loop at claim `u` keeps the stage. */
    lemma StageFinish(b: nat, u: nat, st: Status, blocks: seq<VisBlock>, units: seq<seq<nat>>,
                      prev: seq<int>, copies: seq<seq<nat>>, done: seq<bool>, d: nat)
      requires StageOk(b, u, st, blocks, units, prev, copies, done) && d < numDevices
      requires u >= Units(b) || st != Ok
      ensures StageOk(b, u + 1, st, blocks, units, prev, copies, done[d := true])
    {
      DevicesLater(b, u, blocks, units, prev, copies);
    }

    /** A device simulating unit `u`, claimed below the bound under status
        0, keeps the stage, whatever status the unit leaves. */
    lemma StageSimulate(b: nat, u: nat, st: Status, blocks: seq<VisBlock>, units: seq<seq<nat>>,
                        prev: seq<int>, copies: seq<seq<nat>>, done: seq<bool>, d: nat, xc: seq<int>)
      requires StageOk(b, u, Ok, blocks, units, prev, copies, done) && d < numDevices && u < Units(b)
      requires |xc| == |blocks[d].xc| == Capacity()
      requires var ct := Decompose(u, TimesIn(b));
        forall k :: 0 <= k < Capacity() ==>
          xc[k] == blocks[d].xc[k] + UnitValue(ct.0, ct.1, BlockStart(b, blockLength) + ct.1, TimesIn(b), k)
      ensures var c := ChunkOf(u, TimesIn(b));
        StageOk(b, u + 1, st, blocks[d := blocks[d].(xc := xc)], units[d := units[d] + [u]],
                prev[d := c], if c != prev[d] then copies[d := copies[d] + [c]] else copies, done)
    {
      assert forall k :: 0 <= k < Capacity() ==> xc[k] == blocks[d].xc[k] + Contribution(b, u, k);
      DevicesStep(b, u, blocks, units, prev, copies, d, xc);
      PartitionStep(units, d, u);
      assert Min(u + 1, Units(b)) == u + 1;
    }

    ghost predicate StageAt(b: nat, next: nat)
      reads this
    {
      && HostOk()
      && StageOk(b, next, status, deviceBlocks, processed, previousChunk, copied, finished)
    }

    ghost predicate Stage(b: nat)
      reads this, counter
    {
      StageAt(b, counter.next)
    }

    /** The start of `sim_vis_block_` on every device: the block cleared,
        its times set, and `previous_chunk_index = -1`. */
    method BeginBlock(b: nat)
      requires HostOk() && b < NumBlocks() && counter.next == 0
      modifies this
      ensures Stage(b)
      ensures forall d :: 0 <= d < numDevices ==> !finished[d] && processed[d] == []
      ensures hostBlocks == old(hostBlocks) && written == old(written) && events == old(events)
      ensures status == old(status)
    {
      var blk := VisBlock(BlockStart(b, blockLength), NumTimesBlock(b, blockLength, totalTimes),
                          Zeros(Capacity()), Zeros(acLength));
      deviceBlocks := seq(numDevices, _ => blk);
      previousChunk := seq(numDevices, _ => -1);
      finished := seq(numDevices, _ => false);
      processed := seq(numDevices, _ => []);
      copied := seq(numDevices, _ => []);
      ConcatOfEmpty(processed);
      assert Partition(processed, 0);
    }

    /** Device `d` leaves its unit loop after claiming unit `u`, which is
        past the bound or was claimed under a nonzero status. */
    method FinishUnits(b: nat, d: nat, u: nat)
      requires StageAt(b, u) && d < numDevices && (u >= Units(b) || status != Ok)
      modifies this
      ensures StageAt(b, u + 1)
      ensures finished == old(finished)[d := true]
      ensures processed == old(processed) && status == old(status)
      ensures hostBlocks == old(hostBlocks) && written == old(written) && events == old(events)
    {
      StageFinish(b, u, status, deviceBlocks, processed, previousChunk, copied, finished, d);
      finished := finished[d := true];
    }

    /** Device `d` simulates unit `u`: it copies the unit's chunk when the
        chunk differs from the previous one, then runs the channel loop. */
    method SimulateUnit(b: nat, d: nat, u: nat)
      requires StageAt(b, u) && d < numDevices && u < Units(b) && status == Ok
      modifies this
      ensures StageAt(b, u + 1)
      ensures processed == old(processed)[d := old(processed[d]) + [u]]
      ensures finished == old(finished)
      ensures hostBlocks == old(hostBlocks) && written == old(written) && events == old(events)
    {
      var ntb: Pos := TimesIn(b);
      var ct := Decompose(u, ntb);
      var c, t := ct.0, ct.1;
      assert DeviceAt(b, u, deviceBlocks, processed, previousChunk, copied, d);
      var copies := copied;
      if c != previousChunk[d] {
        copies := copied[d := copied[d] + [c]];
      }
      var absT := BlockStart(b, blockLength) + t;
      var xc := SimUnit(deviceBlocks[d].xc, c, t, absT, ntb);
      var st := unitStatus(c, absT);
      ghost var units := processed[d := processed[d] + [u]];
      var blocks := deviceBlocks[d := deviceBlocks[d].(xc := xc)];
      var prev := previousChunk[d := c];
      StageSimulate(b, u, st, deviceBlocks, processed, previousChunk, copied, finished, d, xc);
      deviceBlocks, previousChunk, copied, processed, status := blocks, prev, copies, units, st;
    }

    /** One pass of the unit loop of device `d`: claim a unit; stop at the
        bound or on a nonzero status; otherwise simulate the unit. */
    method Step(b: nat, d: nat)
      requires Stage(b) && d < numDevices && !finished[d]
      modifies this, counter
      ensures Stage(b)
      ensures counter.next == old(counter.next) + 1
      ensures finished == old(finished)[d := old(counter.next) >= Units(b) || old(status) != Ok]
      ensures !finished[d] ==> processed == old(processed)[d := old(processed[d]) + [old(counter.next)]]
      ensures finished[d] ==> processed == old(processed)
      ensures old(status) != Ok ==> status == old(status)
      ensures hostBlocks == old(hostBlocks) && written == old(written) && events == old(events)
    {
      var u := counter.Claim();
      if u >= Units(b) || status != Ok {
        FinishUnits(b, d, u);
      } else {
        SimulateUnit(b, d, u);
      }
    }

    /** The stage gives every device a block of the block shape. */
    lemma StageShapes(b: nat, next: nat)
      requires StageAt(b, next)
      ensures forall d :: 0 <= d < numDevices ==> Shaped(deviceBlocks[d])
    {
      forall d | 0 <= d < numDevices
        ensures Shaped(deviceBlocks[d])
      {
        assert DeviceAt(b, next, deviceBlocks, processed, previousChunk, copied, d);
      }
    }

    /** Slot `slot` of the host blocks holds block `b`, split among the
        devices: each copy has the block's times and zero
        auto-correlations, and the devices' cross-correlations add up to
        the block's expected values. */
    ghost predicate Holds(host: seq<seq<VisBlock>>, slot: nat, b: nat)
    {
      && HostShaped(host)
      && slot < 2
      && (forall d :: 0 <= d < numDevices ==>
            && host[d][slot].startTime == BlockStart(b, blockLength)
            && host[d][slot].numTimes == NumTimesBlock(b, blockLength, totalTimes)
            && host[d][slot].ac == Zeros(acLength))
      && (forall k :: 0 <= k < Capacity() ==> Total(Column(host, slot, k, false)) == Expected(b, k))
    }

    /** Copying the device blocks of a finished block `b` into a host slot
        makes the slot hold block `b`: the units the devices simulated are
        every unit of the block, once each. */
    lemma CopyHolds(b: nat, next: nat, blocks: seq<VisBlock>, units: seq<seq<nat>>, prev: seq<int>,
                    copies: seq<seq<nat>>, host: seq<seq<VisBlock>>, slot: nat)
      requires DevicesOk(b, next, blocks, units, prev, copies) && Partition(units, Units(b))
      requires HostShaped(host) && slot < 2
      requires forall d :: 0 <= d < numDevices ==> host[d][slot] == blocks[d]
      ensures Holds(host, slot, b)
    {
      forall d | 0 <= d < numDevices
        ensures host[d][slot].startTime == BlockStart(b, blockLength)
        ensures host[d][slot].numTimes == NumTimesBlock(b, blockLength, totalTimes)
        ensures host[d][slot].ac == Zeros(acLength)
      {
        assert DeviceAt(b, next, blocks, units, prev, copies, d);
      }
      forall k | 0 <= k < Capacity()
        ensures Total(Column(host, slot, k, false)) == Expected(b, k)
      {
        var col := Column(host, slot, k, false);
        forall d | 0 <= d < |col|
          ensures col[d] == Sum(units[d], Contrib(b, k))
        {
          assert DeviceAt(b, next, blocks, units, prev, copies, d);
          AccumulatedSum(b, units[d], k);
        }
        TotalOfSums(col, units, Contrib(b, k));
        PartitionSum(units, Units(b), Contrib(b, k));
      }
    }

    /** A slot that holds block `b` keeps holding it while other slots
        change. */
    lemma HoldsFrame(host: seq<seq<VisBlock>>, host': seq<seq<VisBlock>>, slot: nat, b: nat)
      requires HostShaped(host) && HostShaped(host') && slot < 2
      requires forall d :: 0 <= d < numDevices ==> host'[d][slot] == host[d][slot]
      ensures Holds(host, slot, b) ==> Holds(host', slot, b)
    {
      if Holds(host, slot, b) {
        forall k | 0 <= k < Capacity()
          ensures Column(host', slot, k, false) == Column(host, slot, k, false)
        {
        }
      }
    }

    /** The devices' claims reaching the counter in the order of
        `schedule`: each listed device still in its unit loop takes one
        turn. */
    method Interleave(b: nat, schedule: seq<nat>)
      requires Stage(b)
      modifies this, counter
      ensures Stage(b)
      ensures hostBlocks == old(hostBlocks) && written == old(written) && events == old(events)
    {
      var i := 0;
      while i < |schedule|
        invariant 0 <= i <= |schedule| && Stage(b)
        invariant hostBlocks == old(hostBlocks) && written == old(written) && events == old(events)
      {
        var d := schedule[i];
        if d < numDevices && !finished[d] {
          Step(b, d);
        }
        i := i + 1;
      }
    }

    /** Device `d` runs its unit loop to the end; the other devices wait. */
    method Drain(b: nat, d: nat)
      requires Stage(b) && d < numDevices
      modifies this, counter
      ensures Stage(b) && finished == old(finished)[d := true]
      ensures hostBlocks == old(hostBlocks) && written == old(written) && events == old(events)
    {
      while !finished[d]
        invariant Stage(b) && finished == old(finished)[d := finished[d]]
        invariant hostBlocks == old(hostBlocks) && written == old(written) && events == old(events)
        decreases (if counter.next < Units(b) then Units(b) - counter.next else 0) + (if finished[d] then 0 else 1)
      {
        Step(b, d);
      }
    }

    /** Every device, in turn, runs its unit loop to the end. */
    method DrainAll(b: nat)
      requires Stage(b)
      modifies this, counter
      ensures Stage(b) && forall d :: 0 <= d < numDevices ==> finished[d]
      ensures hostBlocks == old(hostBlocks) && written == old(written) && events == old(events)
    {
      var d := 0;
      while d < numDevices
        invariant 0 <= d <= numDevices && Stage(b)
        invariant forall e :: 0 <= e < d ==> finished[e]
        invariant hostBlocks == old(hostBlocks) && written == old(written) && events == old(events)
      {
        Drain(b, d);
        d := d + 1;
      }
    }

    /** The unit loops of all devices: the claims of `schedule`, then every
        device to the end of its loop. */
    method UnitLoops(b: nat, schedule: seq<nat>)
      requires Stage(b)
      modifies this, counter
      ensures Stage(b) && forall d :: 0 <= d < numDevices ==> finished[d]
      ensures hostBlocks == old(hostBlocks) && written == old(written) && events == old(events)
    {
      Interleave(b, schedule);
      DrainAll(b);
    }

    /** The end of `sim_vis_block_` on every device once all unit loops have
        ended: the device block is copied into host slot `b % 2`, unless the
        status is nonzero. The copy reports `hostCopyStatus(b)`; a failed
        copy leaves the host slots as they were. */
    method CopyToHost(b: nat)
      requires Stage(b) && forall d :: 0 <= d < numDevices ==> finished[d]
      modifies this`hostBlocks, this`status
      ensures HostOk()
      ensures status == if old(status) == Ok then hostCopyStatus(b) else old(status)
      ensures status == Ok ==> Partition(processed, Units(b)) && Holds(hostBlocks, b % 2, b)
      ensures status != Ok ==> hostBlocks == old(hostBlocks)
      ensures forall d :: 0 <= d < numDevices ==> hostBlocks[d][1 - b % 2] == old(hostBlocks)[d][1 - b % 2]
      ensures |processed| == |copied| == numDevices
      ensures forall d :: 0 <= d < numDevices ==>
        Increasing(processed[d]) && copied[d] == CopiedChunks(processed[d], TimesIn(b))
    {
      assert finished[0];
      StageShapes(b, counter.next);
      StageCopies(b, counter.next);
      if status == Ok {
        var cs := hostCopyStatus(b);
        if cs == Ok {
          var slot := b % 2;
          hostBlocks := CopyInto(hostBlocks, slot, deviceBlocks);
          CopyHolds(b, counter.next, deviceBlocks, processed, previousChunk, copied, hostBlocks, slot);
        }
        status := cs;
      }
    }

    /** Every device has taken its units in increasing order and copied
        exactly the chunk changes among them. */
    lemma StageCopies(b: nat, next: nat)
      requires StageAt(b, next)
      ensures |processed| == |copied| == numDevices
      ensures forall d :: 0 <= d < numDevices ==>
        Increasing(processed[d]) && copied[d] == CopiedChunks(processed[d], TimesIn(b))
    {
      forall e | 0 <= e < numDevices
        ensures Increasing(processed[e]) && copied[e] == CopiedChunks(processed[e], TimesIn(b))
      {
        assert DeviceAt(b, next, deviceBlocks, processed, previousChunk, copied, e);
      }
    }

    /** `sim_vis_block_` on every device for block `b`, into host slot
        `b % 2`. The devices' claims reach the counter in the order of
        `schedule`; after it, every device still in its unit loop runs it to
        the end. When the status stays 0, the units the devices simulated
        are every unit of the block, once each, and the slot holds the
        block; every device took its units in increasing order, so it copied
        no chunk twice; the other slot is kept. */
    method ComputeBlock(b: nat, schedule: seq<nat>)
      requires HostOk() && status == Ok && b < NumBlocks() && counter.next == 0
      modifies this, counter
      ensures HostOk()
      ensures status == Ok ==> Partition(processed, Units(b)) && Holds(hostBlocks, b % 2, b)
      ensures status != Ok ==> hostBlocks == old(hostBlocks)
      ensures forall d :: 0 <= d < numDevices ==> hostBlocks[d][1 - b % 2] == old(hostBlocks)[d][1 - b % 2]
      ensures |processed| == |copied| == numDevices
      ensures forall d :: 0 <= d < numDevices ==>
        Increasing(processed[d]) && copied[d] == CopiedChunks(processed[d], TimesIn(b))
      ensures written == old(written) && events == old(events) + [Compute(b, b % 2)]
    {
      events := events + [Compute(b, b % 2)];
      BeginBlock(b);
      UnitLoops(b, schedule);
      CopyToHost(b);
    }

    /** Each value of `acc` is the total of that value over devices
        `0 .. i-1` of slot `slot`. */
    ghost predicate Folded(host: seq<seq<VisBlock>>, slot: nat, auto: bool, i: nat, acc: seq<int>)
      requires i <= |host|
    {
      forall k :: 0 <= k < |acc| ==> acc[k] == Total(Column(host, slot, k, auto)[..i])
    }

    /** Device 0's own values are the totals over device 0 alone. */
    lemma FoldStart(host: seq<seq<VisBlock>>, slot: nat, auto: bool)
      requires HostShaped(host) && slot < 2
      ensures Folded(host, slot, auto, 1, Arr(host[0][slot], auto))
    {
      forall k | 0 <= k < |Arr(host[0][slot], auto)|
        ensures Arr(host[0][slot], auto)[k] == Total(Column(host, slot, k, auto)[..1])
      {
        TotalStep(Column(host, slot, k, auto), 0);
      }
    }

    /** Adding device `i`'s values extends the totals to device `i`. */
    lemma FoldStep(host: seq<seq<VisBlock>>, slot: nat, auto: bool, i: nat, acc: seq<int>)
      requires HostShaped(host) && slot < 2 && i < numDevices
      requires |acc| == |Arr(host[i][slot], auto)| && Folded(host, slot, auto, i, acc)
      ensures Folded(host, slot, auto, i + 1, AddArrays(acc, Arr(host[i][slot], auto)))
    {
      var acc' := AddArrays(acc, Arr(host[i][slot], auto));
      forall k | 0 <= k < |acc'|
        ensures acc'[k] == Total(Column(host, slot, k, auto)[..i + 1])
      {
        TotalStep(Column(host, slot, k, auto), i);
      }
    }

    /** Totals over all the devices are the totals of the columns. */
    lemma FoldEnd(host: seq<seq<VisBlock>>, slot: nat, auto: bool, acc: seq<int>)
      requires HostShaped(host) && Folded(host, slot, auto, numDevices, acc)
      ensures forall k :: 0 <= k < |acc| ==> acc[k] == Total(Column(host, slot, k, auto))
    {
      forall k | 0 <= k < |acc|
        ensures acc[k] == Total(Column(host, slot, k, auto))
      {
        assert Column(host, slot, k, auto)[..numDevices] == Column(host, slot, k, auto);
      }
    }

    /** The loop at the start of `write_vis_block_`: starting from device
        0's block in slot `slot`, the block of every other device is added
        in, element by element, cross- and auto-correlations alike
        (`oskar_mem_add`). The result holds, at every index, the total over
        the devices. */
    method SumDevices(host: seq<seq<VisBlock>>, slot: nat) returns (xc0: seq<int>, ac0: seq<int>)
      requires HostShaped(host) && slot < 2
      ensures |xc0| == Capacity() && |ac0| == acLength
      ensures forall k :: 0 <= k < Capacity() ==> xc0[k] == Total(Column(host, slot, k, false))
      ensures forall k :: 0 <= k < acLength ==> ac0[k] == Total(Column(host, slot, k, true))
    {
      xc0 := host[0][slot].xc;
      ac0 := host[0][slot].ac;
      FoldStart(host, slot, false);
      FoldStart(host, slot, true);
      var i := 1;
      while i < numDevices
        invariant 1 <= i <= numDevices && |xc0| == Capacity() && |ac0| == acLength
        invariant Folded(host, slot, false, i, xc0) && Folded(host, slot, true, i, ac0)
      {
        assert Shaped(host[i][slot]);
        FoldStep(host, slot, false, i, xc0);
        FoldStep(host, slot, true, i, ac0);
        xc0 := AddArrays(xc0, host[i][slot].xc);
        ac0 := AddArrays(ac0, host[i][slot].ac);
        i := i + 1;
      }
      FoldEnd(host, slot, false, xc0);
      FoldEnd(host, slot, true, ac0);
    }

    /** The fold: device 0's block in slot `slot` becomes the sum over the
        devices; its time metadata, its other slot and the other devices'
        blocks are left as they were. */
    method FoldDevices(slot: nat)
      requires HostOk() && slot < 2
      modifies this`hostBlocks
      ensures HostOk()
      ensures forall k :: 0 <= k < Capacity() ==> hostBlocks[0][slot].xc[k] == Total(Column(old(hostBlocks), slot, k, false))
      ensures forall k :: 0 <= k < acLength ==> hostBlocks[0][slot].ac[k] == Total(Column(old(hostBlocks), slot, k, true))
      ensures hostBlocks[0][slot].startTime == old(hostBlocks)[0][slot].startTime
      ensures hostBlocks[0][slot].numTimes == old(hostBlocks)[0][slot].numTimes
      ensures hostBlocks[0][1 - slot] == old(hostBlocks)[0][1 - slot]
      ensures forall d :: 1 <= d < numDevices ==> hostBlocks[d] == old(hostBlocks)[d]
    {
      var xc0, ac0 := SumDevices(hostBlocks, slot);
      hostBlocks := hostBlocks[0 := hostBlocks[0][slot := hostBlocks[0][slot].(xc := xc0, ac := ac0)]];
    }

    /** The system noise of block `i`, one value per cross-correlation. */
    function XcNoise(i: nat): (n: seq<int>)
      ensures |n| == Capacity() && forall k :: 0 <= k < |n| ==> n[k] == xcNoise(i, k)
    {
      seq(Capacity(), (k: int) requires 0 <= k => xcNoise(i, k))
    }

    /** The system noise of block `i`, one value per auto-correlation. */
    function AcNoise(i: nat): (n: seq<int>)
      ensures |n| == acLength && forall k :: 0 <= k < |n| ==> n[k] == acNoise(i, k)
    {
      seq(acLength, (k: int) requires 0 <= k => acNoise(i, k))
    }

    /** A slot holding block `i`, folded into device 0, holds the block's
        values: the expected cross-correlations and zero
        auto-correlations. */
    lemma FoldedHolds(host: seq<seq<VisBlock>>, slot: nat, i: nat, blk: VisBlock)
      requires Holds(host, slot, i) && Shaped(blk)
      requires blk.startTime == host[0][slot].startTime && blk.numTimes == host[0][slot].numTimes
      requires forall k :: 0 <= k < Capacity() ==> blk.xc[k] == Total(Column(host, slot, k, false))
      requires forall k :: 0 <= k < acLength ==> blk.ac[k] == Total(Column(host, slot, k, true))
      ensures blk.startTime == BlockStart(i, blockLength) && blk.numTimes == NumTimesBlock(i, blockLength, totalTimes)
      ensures forall k :: 0 <= k < Capacity() ==> blk.xc[k] == Expected(i, k)
      ensures forall k :: 0 <= k < acLength ==> blk.ac[k] == 0
    {
      forall k | 0 <= k < acLength
        ensures blk.ac[k] == 0
      {
        TotalOfZeros(Column(host, slot, k, true));
      }
    }

    /** The folded block, with the noise of block `i` added when noise is
        enabled, is the block the run should write as block `i`. */
    lemma NoisyIsExpected(i: nat, blk: VisBlock)
      requires Shaped(blk)
      requires blk.startTime == BlockStart(i, blockLength) && blk.numTimes == NumTimesBlock(i, blockLength, totalTimes)
      requires forall k :: 0 <= k < Capacity() ==> blk.xc[k] == Expected(i, k)
      requires forall k :: 0 <= k < acLength ==> blk.ac[k] == 0
      ensures noiseEnabled ==> blk.(xc := AddArrays(blk.xc, XcNoise(i)), ac := AddArrays(blk.ac, AcNoise(i))) == ExpectedBlock(i)
      ensures !noiseEnabled ==> blk == ExpectedBlock(i)
      ensures blk == SummedBlock(i)
    {
    }

    /** `write_vis_block_` for block `i` from host slot `slot`: fold the
        devices into device 0 and evaluate the uvw coordinates, leaving
        `uvwStatus(i)`; then, unless that is nonzero, add the block's system
        noise when enabled and write, leaving `writeStatus(i)`. Nothing
        happens on a status that is already nonzero. The block written is
        the block the run should write; device 0's slot holds it, or the
        noise-free sum when the uvw step failed. */
    method WriteBlock(i: nat, slot: nat)
      requires HostOk() && slot < 2
      requires status == Ok ==> Holds(hostBlocks, slot, i)
      modifies this`hostBlocks, this`status, this`written, this`events
      ensures HostOk()
      ensures old(status) != Ok ==> status == old(status) && hostBlocks == old(hostBlocks)
      ensures old(status) == Ok ==> status == if uvwStatus(i) != Ok then uvwStatus(i) else writeStatus(i)
      ensures written == if old(status) == Ok && status == Ok then old(written) + [ExpectedBlock(i)] else old(written)
      ensures old(status) == Ok && uvwStatus(i) == Ok ==> hostBlocks[0][slot] == ExpectedBlock(i)
      ensures old(status) == Ok && uvwStatus(i) != Ok ==> hostBlocks[0][slot] == SummedBlock(i)
      ensures forall d :: 1 <= d < numDevices ==> hostBlocks[d][slot] == old(hostBlocks)[d][slot]
      ensures forall d :: 0 <= d < numDevices ==> hostBlocks[d][1 - slot] == old(hostBlocks)[d][1 - slot]
      ensures events == old(events) + [Write(i, slot)]
    {
      events := events + [Write(i, slot)];
      if status == Ok {
        ghost var host := hostBlocks;
        FoldDevices(slot);
        var blk := hostBlocks[0][slot];
        FoldedHolds(host, slot, i, blk);
        NoisyIsExpected(i, blk);
        status := uvwStatus(i);
        if status != Ok {
          return;
        }
        if noiseEnabled {
          blk := blk.(xc := AddArrays(blk.xc, XcNoise(i)), ac := AddArrays(blk.ac, AcNoise(i)));
          hostBlocks := hostBlocks[0 := hostBlocks[0][slot := blk]];
        }
        status := writeStatus(i);
        if status == Ok {
          written := written + [blk];
        }
      }
    }

    /** The compute half of iteration `b`: block `b` goes into slot
        `b % 2`, and block `b - 1`, waiting in the other slot, stays. */
    method ComputeStep(b: nat, schedule: seq<nat>)
      requires HostOk() && status == Ok && b < NumBlocks() && counter.next == 0
      requires b > 0 ==> Holds(hostBlocks, (b - 1) % 2, b - 1)
      modifies this, counter
      ensures HostOk() && written == old(written)
      ensures events == old(events) + [Compute(b, b % 2)]
      ensures status == Ok ==> Holds(hostBlocks, b % 2, b)
      ensures b > 0 ==> Holds(hostBlocks, (b - 1) % 2, b - 1)
    {
      ghost var host := hostBlocks;
      ComputeBlock(b, schedule);
      if b > 0 {
        assert (b - 1) % 2 == 1 - b % 2;
        HoldsFrame(host, hostBlocks, 1 - b % 2, b - 1);
      }
    }

    /** The write half of iteration `b`: block `b - 1` goes out of slot
        `(b - 1) % 2`; the other slot, holding block `b`, stays. */
    method WriteStep(b: nat)
      requires HostOk() && b > 0
      requires status == Ok ==> Holds(hostBlocks, (b - 1) % 2, b - 1)
      modifies this`hostBlocks, this`status, this`written, this`events
      ensures HostOk()
      ensures events == old(events) + [Write(b - 1, 1 - b % 2)]
      ensures written == if old(status) == Ok && status == Ok then old(written) + [ExpectedBlock(b - 1)] else old(written)
      ensures old(status) != Ok ==> status == old(status)
      ensures Holds(old(hostBlocks), b % 2, b) ==> Holds(hostBlocks, b % 2, b)
    {
      ghost var host := hostBlocks;
      assert (b - 1) % 2 == 1 - b % 2 && 1 - (1 - b % 2) == b % 2;
      WriteBlock(b - 1, 1 - b % 2);
      HoldsFrame(host, hostBlocks, b % 2, b);
    }

    /** One iteration `b` of the driver's block loop, for a run whose status
        is still zero at its start: compute block `b` into slot `b % 2`
        when `b` is a block, then write block `b - 1` out of the other
        slot when there is one. Block `b - 1` must be in that slot. */
    method BlockIteration(b: nat, schedule: seq<nat>)
      requires HostOk() && status == Ok && b <= NumBlocks() && counter.next == 0
      requires b > 0 ==> Holds(hostBlocks, (b - 1) % 2, b - 1)
      modifies this, counter
      ensures HostOk()
      ensures events == old(events) + DoubleBuffer.Iteration(NumBlocks(), b)
      ensures status == Ok && b < NumBlocks() ==> Holds(hostBlocks, b % 2, b)
      ensures written == if status == Ok && b > 0 then old(written) + [ExpectedBlock(b - 1)] else old(written)
    {
      if b < NumBlocks() {
        ComputeStep(b, schedule);
      }
      if b > 0 {
        WriteStep(b);
      }
    }

    /** The driver's block loop over `NumBlocks() + 1` iterations, run
        sequentially; an iteration started with a nonzero status does
        nothing. `schedules(b)` is the order in which the devices claim
        the work units of block `b`. The calls made are the first `ran`
        iterations of the double-buffered schedule, every block written is
        the block the run should write, and a run whose status stays zero
        writes all the blocks. */
    method Run(schedules: nat -> seq<nat>) returns (ghost ran: nat)
      requires HostOk() && status == Ok && counter.next == 0 && written == [] && events == []
      modifies this, counter
      ensures events == Schedule(NumBlocks(), ran) && ran <= NumBlocks() + 1
      ensures forall i :: 0 <= i < |written| ==> written[i] == ExpectedBlock(i)
      ensures |written| <= NumBlocks()
      ensures status == Ok ==> ran == NumBlocks() + 1 && |written| == NumBlocks()
    {
      var n := NumBlocks();
      ran := 0;
      var b := 0;
      while b < n + 1
        invariant 0 <= b <= n + 1 && ran <= b
        invariant HostOk() && counter.next == 0
        invariant events == Schedule(n, ran)
        invariant status == Ok ==> ran == b
        invariant forall i :: 0 <= i < |written| ==> written[i] == ExpectedBlock(i)
        invariant |written| <= (if b == 0 then 0 else b - 1)
        invariant status == Ok ==> |written| == (if b == 0 then 0 else b - 1)
        invariant status == Ok && 0 < b <= n ==> Holds(hostBlocks, (b - 1) % 2, b - 1)
      {
        if status == Ok {
          BlockIteration(b, schedules(b));
          counter.Reset();
          ran := ran + 1;
        }
        b := b + 1;
      }
    }
  }
}
