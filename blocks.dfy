/** The integer bookkeeping of the interferometer simulation: time blocks,
    work units inside a block, and the position of each (time, channel)
    slice in a block's cross-correlation array. */
module Blocks {

  /** `num_vis_blocks`: the number of blocks of `len` times covering
      `total` times. */
  function NumVisBlocks(total: nat, len: nat): (n: nat)
    requires len > 0
    ensures n * len >= total
    ensures n == 0 || (n - 1) * len < total
  {
    (total + len - 1) / len
  }

  /** `block_start_time_index`. */
  function BlockStart(b: nat, len: nat): nat
  {
    b * len
  }

  /** `num_times_block`: the block's times, clamped to the end of the
      observation. */
  function NumTimesBlock(b: nat, len: nat, total: nat): (n: int)
    requires len > 0
    ensures b < NumVisBlocks(total, len) ==> 1 <= n <= len && BlockStart(b, len) + n <= total
    ensures b < NumVisBlocks(total, len) ==>
      n == (if BlockStart(b, len) + len <= total then len else total - BlockStart(b, len))
  {
    var start := BlockStart(b, len);
    var last := start + len - 1;
    var clamped := if last >= total then total - 1 else last;
    1 + clamped - start
  }

  /** The number of times in the first `k` blocks. */
  function TimesBefore(k: nat, len: nat, total: nat): int
    requires len > 0
  {
    if k == 0 then 0 else TimesBefore(k - 1, len, total) + NumTimesBlock(k - 1, len, total)
  }

  /** The first `k` blocks cover exactly the first `min(k * len, total)`
      times. */
  lemma {:induction false} TimesBeforeClosed(k: nat, len: nat, total: nat)
    requires len > 0 && k <= NumVisBlocks(total, len)
    ensures TimesBefore(k, len, total) == if k * len <= total then k * len else total
  {
    if k > 0 {
      TimesBeforeClosed(k - 1, len, total);
      assert (k - 1) * len + len == k * len;
    }
  }

  /** The block sizes add up to the number of times in the observation. */
  lemma BlockSizesSum(len: nat, total: nat)
    requires len > 0
    ensures TimesBefore(NumVisBlocks(total, len), len, total) == total
  {
    TimesBeforeClosed(NumVisBlocks(total, len), len, total);
  }

  /** Multiplication by a natural number keeps the order. */
  lemma MulMono(a: nat, b: nat, n: nat)
    requires a <= b
    ensures a * n <= b * n
  {
    assert b * n == a * n + (b - a) * n;
  }

  /** Every time belongs to block `t / len`, at offset `t % len`. */
  lemma TimeInBlock(t: nat, len: nat, total: nat)
    requires len > 0 && t < total
    ensures t / len < NumVisBlocks(total, len)
    ensures BlockStart(t / len, len) <= t < BlockStart(t / len, len) + NumTimesBlock(t / len, len, total)
  {
    var b := t / len;
    var n := NumVisBlocks(total, len);
    assert b * len + t % len == t;
    if b >= n {
      MulMono(n, b, len);
    }
  }

  /** A work unit index split into (chunk, time in block), as
      `i_chunk = i / n` and `i_time = i - i_chunk * n`. */
  function Decompose(i: nat, ntb: nat): (ct: (nat, nat))
    requires ntb > 0
    ensures ct.1 < ntb && ct.0 * ntb + ct.1 == i
  {
    var chunk := i / ntb;
    (chunk, i - chunk * ntb)
  }

  /** Decomposing a unit below `ntb * numChunks` gives a chunk below
      `numChunks`. */
  lemma DecomposeInRange(i: nat, ntb: nat, numChunks: nat)
    requires ntb > 0 && i < ntb * numChunks
    ensures Decompose(i, ntb).0 < numChunks
  {
    var ct := Decompose(i, ntb);
    if ct.0 >= numChunks {
      MulMono(numChunks, ct.0, ntb);
    }
  }

  /** Every (chunk, time) pair is the decomposition of exactly one unit. */
  lemma DecomposeOnto(chunk: nat, time: nat, ntb: nat, numChunks: nat)
    requires ntb > 0 && chunk < numChunks && time < ntb
    ensures chunk * ntb + time < ntb * numChunks
    ensures Decompose(chunk * ntb + time, ntb) == (chunk, time)
  {
    var i := chunk * ntb + time;
    MulMono(chunk + 1, numChunks, ntb);
    assert (chunk + 1) * ntb == chunk * ntb + ntb;
    var ct := Decompose(i, ntb);
    UniqueDivision(ct.0, ct.1, chunk, time, ntb);
  }

  /** The quotient and remainder of a division are unique. */
  lemma UniqueDivision(q1: nat, r1: nat, q2: nat, r2: nat, n: nat)
    requires n > 0 && r1 < n && r2 < n && q1 * n + r1 == q2 * n + r2
    ensures q1 == q2 && r1 == r2
  {
    if q1 < q2 {
      MulMono(q1 + 1, q2, n);
    } else if q2 < q1 {
      MulMono(q2 + 1, q1, n);
    }
  }

  /** Two units with the same decomposition are the same unit. */
  lemma DecomposeInjective(i: nat, j: nat, ntb: nat)
    requires ntb > 0 && Decompose(i, ntb) == Decompose(j, ntb)
    ensures i == j
  {
  }

  /** Later units never belong to an earlier chunk. */
  lemma ChunkMonotone(i: nat, j: nat, ntb: nat)
    requires ntb > 0 && i <= j
    ensures Decompose(i, ntb).0 <= Decompose(j, ntb).0
  {
    var a, b := Decompose(i, ntb), Decompose(j, ntb);
    if a.0 > b.0 {
      MulMono(b.0 + 1, a.0, ntb);
    }
  }

  /** The offset of the cross-correlation slice for block time `t` and
      channel `c`: `num_baselines * (num_channels * t + c)`. */
  function SliceOffset(nb: nat, nch: nat, t: nat, c: nat): nat
  {
    nb * (nch * t + c)
  }

  /** A slice of a valid (time, channel) lies inside the block's array of
      `nb * nch * ntb` values. */
  lemma SliceInBlock(nb: nat, nch: nat, ntb: nat, t: nat, c: nat)
    requires t < ntb && c < nch
    ensures SliceOffset(nb, nch, t, c) + nb <= nb * nch * ntb
  {
    MulMono(t + 1, ntb, nch);
    assert (t + 1) * nch == nch * t + nch;
    MulMono(nch * t + c + 1, nch * ntb, nb);
    assert (nch * t + c + 1) * nb == nb * (nch * t + c) + nb;
    assert nch * ntb * nb == nb * nch * ntb;
  }

  /** `k` lies in the `s`-th run of `nb` values exactly when `k / nb == s`. */
  lemma RunOf(nb: nat, s: nat, k: nat)
    requires nb > 0
    ensures nb * s <= k < nb * s + nb <==> k / nb == s
  {
    if nb * s <= k < nb * s + nb {
      UniqueDivision(k / nb, k % nb, s, k - nb * s, nb);
    }
    if k / nb == s {
      assert (k / nb) * nb <= k < (k / nb) * nb + nb;
    }
  }

  /** Slice number `q` is the slice of (t, c) exactly when `q / nch == t`
      and `q % nch == c`. */
  lemma SliceNumber(nch: nat, t: nat, c: nat, q: nat)
    requires c < nch
    ensures q == nch * t + c <==> q / nch == t && q % nch == c
  {
    if q == nch * t + c {
      UniqueDivision(q / nch, q % nch, t, c, nch);
    }
  }

  /** Index `k` is in the slice of (t, c) exactly when `k / nb` is the
      slice number `nch * t + c`; so it is in the slice of
      `((k / nb) / nch, (k / nb) % nch)` and of no other. */
  lemma SliceMembership(nb: nat, nch: nat, t: nat, c: nat, k: nat)
    requires nb > 0 && c < nch
    ensures SliceOffset(nb, nch, t, c) <= k < SliceOffset(nb, nch, t, c) + nb
            <==> (k / nb) / nch == t && (k / nb) % nch == c
  {
    RunOf(nb, nch * t + c, k);
    SliceNumber(nch, t, c, k / nb);
  }

  /** Slices of distinct (time, channel) pairs do not overlap. */
  lemma SlicesDisjoint(nb: nat, nch: nat, t1: nat, c1: nat, t2: nat, c2: nat, k: nat)
    requires nb > 0 && c1 < nch && c2 < nch && (t1, c1) != (t2, c2)
    ensures !(SliceOffset(nb, nch, t1, c1) <= k < SliceOffset(nb, nch, t1, c1) + nb
              && SliceOffset(nb, nch, t2, c2) <= k < SliceOffset(nb, nch, t2, c2) + nb)
  {
    SliceMembership(nb, nch, t1, c1, k);
    SliceMembership(nb, nch, t2, c2, k);
  }
}
