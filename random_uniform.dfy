/** `oskar_mem_random_uniform`: fill a memory block with uniform random
    values from a counter-based generator. Element `j` takes word `j % 4` of
    the generator call whose counter is `j / 4`, so the values depend only on
    the key (seed and three counters) and the index. */
module RandomUniform {
  import opened Status
  import opened MemTypes

  const Uint32: nat := 0x1_0000_0000

  /** The four 32-bit words returned by one generator call. */
  datatype Block4 = Block4(w0: nat, w1: nat, w2: nat, w3: nat)
  {
    function Word(k: nat): nat
      requires k < 4
    {
      if k == 0 then w0 else if k == 1 then w1 else if k == 2 then w2 else w3
    }
  }

  /** The generator: (seed, counter, counter1, counter2, counter3) to four words. */
  type Generator = (nat, nat, nat, nat, nat) -> Block4

  /** The conversion of a word to a value in [0, 1). */
  type Convert = nat -> real

  /** The key of one fill: the seed and the three caller-chosen counters. */
  datatype Key = Key(seed: nat, counter1: nat, counter2: nat, counter3: nat)

  /** The generator call with counter `i`. */
  function Call(gen: Generator, key: Key, i: nat): Block4
  {
    gen(key.seed, i, key.counter1, key.counter2, key.counter3)
  }

  /** The value element `j` receives: the element view of the fill. */
  function Uniform(gen: Generator, conv: Convert, key: Key, j: nat): real
  {
    conv(Call(gen, key, j / 4).Word(j % 4))
  }

  /** In the group loop, element `4 * i + k` is word `k` of call `i`. */
  lemma GroupElement(gen: Generator, conv: Convert, key: Key, i: nat, k: nat)
    requires k < 4
    ensures Uniform(gen, conv, key, 4 * i + k) == conv(Call(gen, key, i).Word(k))
  {
    assert (4 * i + k) / 4 == i && (4 * i + k) % 4 == k;
  }

  /** One pass of the group loop: elements `4 * i .. 4 * i + 3` take the four
      words of call `i`; nothing else changes. */
  method FillGroup(gen: Generator, conv: Convert, key: Key, i: nat, data: array<real>)
    requires 4 * i + 4 <= data.Length
    modifies data
    ensures forall j :: 4 * i <= j < 4 * i + 4 ==> data[j] == Uniform(gen, conv, key, j)
    ensures forall j :: 0 <= j < data.Length && !(4 * i <= j < 4 * i + 4) ==> data[j] == old(data[j])
  {
    var u := Call(gen, key, i);
    var i4 := i * 4;
    data[i4] := conv(u.w0);
    data[i4 + 1] := conv(u.w1);
    data[i4 + 2] := conv(u.w2);
    data[i4 + 3] := conv(u.w3);
    GroupElement(gen, conv, key, i, 0);
    GroupElement(gen, conv, key, i, 1);
    GroupElement(gen, conv, key, i, 2);
    GroupElement(gen, conv, key, i, 3);
  }

  /** The guarded tail for `n % 4 != 0`: call `n / 4` serves the indices
      `4 * (n / 4) + k` that are below `n`; nothing else changes. `written`
      logs the indices assigned, in order. */
  method FillTail(gen: Generator, conv: Convert, key: Key, n: nat, data: array<real>)
    returns (ghost written: seq<nat>)
    requires n % 4 != 0 && n <= data.Length
    modifies data
    ensures forall j :: 4 * (n / 4) <= j < n ==> data[j] == Uniform(gen, conv, key, j)
    ensures forall j :: 0 <= j < data.Length && !(4 * (n / 4) <= j < n) ==> data[j] == old(data[j])
    ensures |written| == n % 4 && forall k :: 0 <= k < n % 4 ==> written[k] == 4 * (n / 4) + k
  {
    var n1 := n / 4;
    var u := Call(gen, key, n1);
    var i4 := n1 * 4;
    data[i4] := conv(u.w0);
    written := [i4];
    GroupElement(gen, conv, key, n1, 0);
    if i4 + 1 < n {
      data[i4 + 1] := conv(u.w1);
      written := written + [i4 + 1];
      GroupElement(gen, conv, key, n1, 1);
    }
    if i4 + 2 < n {
      data[i4 + 2] := conv(u.w2);
      written := written + [i4 + 2];
      GroupElement(gen, conv, key, n1, 2);
    }
    if i4 + 3 < n {
      // The fourth guard never holds: n - i4 == n % 4 <= 3.
      assert false;
    }
  }

  /** Fill `data[0..n)` as `oskar_mem_random_uniform_f` / `_d` do: `n / 4`
      full groups of four from calls `0 .. n/4 - 1`, then, when `n % 4 != 0`,
      the guarded tail from call `n / 4`. `written` logs the indices
      assigned, in order: each index below `n` exactly once and nothing at
      or above `n`. */
  method FillUniform(gen: Generator, conv: Convert, key: Key, n: nat, data: array<real>)
    returns (ghost written: seq<nat>)
    requires n <= data.Length
    modifies data
    ensures forall j :: 0 <= j < n ==> data[j] == Uniform(gen, conv, key, j)
    ensures forall j :: n <= j < data.Length ==> data[j] == old(data[j])
    ensures |written| == n && forall j :: 0 <= j < n ==> written[j] == j
  {
    var n1 := n / 4;
    written := [];
    var i := 0;
    while i < n1
      invariant 0 <= i <= n1
      invariant |written| == 4 * i && forall j :: 0 <= j < 4 * i ==> written[j] == j
      invariant forall j :: 0 <= j < 4 * i ==> data[j] == Uniform(gen, conv, key, j)
      invariant forall j :: 4 * i <= j < data.Length ==> data[j] == old(data[j])
    {
      FillGroup(gen, conv, key, i, data);
      written := written + [4 * i, 4 * i + 1, 4 * i + 2, 4 * i + 3];
      i := i + 1;
    }
    if n % 4 != 0 {
      ghost var tail := FillTail(gen, conv, key, n, data);
      written := written + tail;
    }
  }

  /** The number of values in a block of `length` elements of type `t`:
      two per complex element, four per matrix element. */
  function ElementCount(t: MemType, length: nat): (n: nat)
    ensures !t.complex && !t.matrix ==> n == length
    ensures t.complex && !t.matrix ==> n == 2 * length
    ensures !t.complex && t.matrix ==> n == 4 * length
    ensures t.complex && t.matrix ==> n == 8 * length
  {
    var scaled := if t.complex then length * 2 else length;
    if t.matrix then scaled * 4 else scaled
  }

  /** The count the fill receives: the element count is a `size_t`, but the
      fill routines take an `unsigned int`, so it is reduced modulo 2^32. */
  function FillCount(t: MemType, length: nat): (n: nat)
    ensures n < Uint32 && n <= ElementCount(t, length)
    ensures ElementCount(t, length) < Uint32 ==> n == ElementCount(t, length)
  {
    ElementCount(t, length) % Uint32
  }

  /** A complex matrix block of 2^29 elements holds 2^32 values, and the
      narrowing leaves nothing to fill. */
  lemma CountNarrows()
    ensures FillCount(MemType(Double, true, true), 0x2000_0000) == 0
  {
  }

  /** A memory block: its type, location, length in elements and values. */
  class Mem {
    var memType: MemType
    var location: Location
    var length: nat
    const data: array<real>

    constructor (memType: MemType, location: Location, length: nat, data: array<real>)
      ensures this.memType == memType && this.location == location
      ensures this.length == length && this.data == data
    {
      this.memType := memType;
      this.location := location;
      this.length := length;
      this.data := data;
    }
  }

  /** `oskar_mem_random_uniform`. A set status on entry is returned and
      nothing changes. On the GPU the result is the device check's status
      when CUDA is present and `CudaNotAvailable` otherwise. On the CPU
      single and double precision data are filled as `FillUniform` does over
      `FillCount` values; another precision, or another location, leaves the
      data untouched and the status `Ok`. */
  method MemRandomUniform(mem: Mem, key: Key, gen: Generator, conv: Convert,
                          haveCuda: bool, deviceCheck: Status, status: Status)
    returns (st: Status)
    requires FillCount(mem.memType, mem.length) <= mem.data.Length
    modifies mem.data
    ensures status != Ok ==> st == status && unchanged(mem.data)
    ensures status == Ok && mem.location == Gpu ==>
      st == (if haveCuda then deviceCheck else Error(CudaNotAvailable))
    ensures status == Ok && mem.location == Gpu && !haveCuda ==> unchanged(mem.data)
    ensures status == Ok && mem.location != Gpu ==> st == Ok
    ensures status == Ok && mem.location == Cpu && mem.memType.precision in {Single, Double} ==>
      var n := FillCount(mem.memType, mem.length);
      && (forall j :: 0 <= j < n ==> mem.data[j] == Uniform(gen, conv, key, j))
      && (forall j :: n <= j < mem.data.Length ==> mem.data[j] == old(mem.data[j]))
    ensures status == Ok && mem.location != Gpu
            && !(mem.location == Cpu && mem.memType.precision in {Single, Double})
            ==> unchanged(mem.data)
  {
    if status != Ok {
      return status;
    }
    var n := FillCount(mem.memType, mem.length);
    if mem.location == Gpu {
      // The device kernels are not part of the model; only the status is.
      st := if haveCuda then deviceCheck else Error(CudaNotAvailable);
    } else if mem.location == Cpu {
      if mem.memType.precision == Single || mem.memType.precision == Double {
        ghost var written := FillUniform(gen, conv, key, n, mem.data);
      }
      st := Ok;
    } else {
      st := Ok;
    }
  }
}
