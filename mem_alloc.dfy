/** `oskar_mem_alloc`: allocate the data of a memory block on the host or the
    device, deciding the status from the element type and the location. */
module MemAlloc {
  import opened Status
  import opened MemTypes

  /** 2^64: `size_t` on a 64-bit host. */
  const SizeMax: nat := 0x1_0000_0000_0000_0000

  /** An address returned by an allocator, or null. */
  datatype Ptr = Null | Addr(address: nat)

  /** `n_elements * element_size`: the signed element count is converted to
      `size_t` before the multiplication, which wraps modulo 2^64. */
  function RequestedBytes(nElements: int, elementSize: nat): (bytes: nat)
    requires elementSize < SizeMax
    ensures bytes < SizeMax
    ensures 0 <= nElements && nElements * elementSize < SizeMax ==> bytes == nElements * elementSize
  {
    ((nElements % SizeMax) * elementSize) % SizeMax
  }

  /** A negative element count does not fail the size computation: it asks
      the allocator for an enormous block. */
  lemma NegativeCountWraps()
    ensures RequestedBytes(-1, 8) == SizeMax - 8
  {
  }

  /** What the allocation does: its status, and the new value of `mem->data`
      (`None` when the data pointer is left untouched). */
  datatype AllocResult = AllocResult(status: Status, data: Option<Ptr>)

  /** The decision of `oskar_mem_alloc` for a non-null block. `hostAlloc` is
      `malloc`; `deviceAlloc` is `cudaMalloc` followed by
      `cudaPeekAtLastError`, giving the pointer and the CUDA error code. */
  function Allocate(nElements: int, location: Location, elementSize: nat,
                    hostAlloc: nat -> Ptr, deviceAlloc: nat -> (Ptr, nat)): (r: AllocResult)
    requires elementSize < SizeMax
    ensures elementSize == 0 ==> r == AllocResult(Error(BadDataType), None)
    ensures elementSize > 0 && location == Cpu ==>
      var p := hostAlloc(RequestedBytes(nElements, elementSize));
      r.data == Some(p) && (r.status == Error(MemoryAllocFailure) <==> p == Null) &&
      (r.status == Ok <==> p != Null)
    ensures elementSize > 0 && location == Gpu ==>
      var (p, err) := deviceAlloc(RequestedBytes(nElements, elementSize));
      r.data == Some(p) && r.status == FromCuda(err)
    ensures elementSize > 0 && location.OtherLocation? ==> r == AllocResult(Error(BadLocation), None)
  {
    if elementSize == 0 then AllocResult(Error(BadDataType), None)
    else
      var bytes := RequestedBytes(nElements, elementSize);
      match location
      case Cpu =>
        var p := hostAlloc(bytes);
        AllocResult(if p == Null then Error(MemoryAllocFailure) else Ok, Some(p))
      case Gpu =>
        var (p, err) := deviceAlloc(bytes);
        AllocResult(FromCuda(err), Some(p))
      case OtherLocation(_) => AllocResult(Error(BadLocation), None)
  }

  /** The fields of the old-style `oskar_Mem` that allocation reads and writes. */
  class OskarMem {
    var nElements: int
    var location: Location
    var memType: MemType
    var data: Ptr

    constructor (n: int, loc: Location, t: MemType)
      ensures nElements == n && location == loc && memType == t && data == Null
    {
      nElements, location, memType, data := n, loc, t, Null;
    }
  }

  /** `oskar_mem_alloc`. `elementSize` is `oskar_mem_element_size`, which is
      0 for an unknown type. */
  method MemAlloc(mem: OskarMem?, elementSize: MemType -> nat,
                  hostAlloc: nat -> Ptr, deviceAlloc: nat -> (Ptr, nat)) returns (err: Status)
    requires mem != null ==> elementSize(mem.memType) < SizeMax
    modifies mem
    ensures mem == null ==> err == Error(InvalidArgument)
    ensures mem != null ==>
      var r := Allocate(old(mem.nElements), old(mem.location), elementSize(old(mem.memType)),
                        hostAlloc, deviceAlloc);
      err == r.status &&
      mem.data == (if r.data.Some? then r.data.value else old(mem.data)) &&
      mem.nElements == old(mem.nElements) && mem.location == old(mem.location) &&
      mem.memType == old(mem.memType)
  {
    if mem == null {
      return Error(InvalidArgument);
    }
    var n := mem.nElements;
    var location := mem.location;
    var size := elementSize(mem.memType);
    if size == 0 {
      return Error(BadDataType);
    }
    var bytes := RequestedBytes(n, size);
    err := Ok;
    if location == Cpu {
      mem.data := hostAlloc(bytes);
      if mem.data == Null {
        err := Error(MemoryAllocFailure);
      }
    } else if location == Gpu {
      var (p, cudaErr) := deviceAlloc(bytes);
      mem.data := p;
      err := FromCuda(cudaErr);
    } else {
      return Error(BadLocation);
    }
  }
}
