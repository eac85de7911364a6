/** Status codes threaded through every OSKAR call.
    The numeric values live in a header that is not part of this model, so the
    codes are a datatype: `Ok` is the zero status, `Error` the negative OSKAR
    codes named by the modelled files, `Device` the positive codes that CUDA
    reports. */
module Status {

  datatype ErrorCode =
    | EndOfFile
    | FileIO
    | InvalidArgument
    | MemoryAllocFailure
    | MemoryNotAllocated
    | TypeMismatch
    | DimensionMismatch
    | BadLocation
    | BadDataType
    | BadJonesType
    | OutOfRange
    | VersionMismatch
    | BadUnits
    | LocationMismatch
    | CudaNotAvailable
    | SettingsError
    | CudaDevices

  /** A positive CUDA error code. */
  type CudaCode = n: int | n > 0 witness 1

  datatype Status = Ok | Error(code: ErrorCode) | Device(cuda: CudaCode)

  datatype Option<T> = None | Some(value: T)

  /** The status after a CUDA call that reports `err` (0 means success). */
  function FromCuda(err: nat): (s: Status)
    ensures s == Ok <==> err == 0
    ensures err > 0 ==> s == Device(err)
  {
    if err == 0 then Ok else Device(err)
  }
}

/** Memory type, precision and location tags of an `oskar_Mem`. */
module MemTypes {

  datatype Location = Cpu | Gpu | OtherLocation(code: int)

  datatype Precision = Single | Double | OtherPrecision(code: int)

  /** The element type of a memory block: a precision, optionally complex,
      optionally a 2x2 matrix of complex values. */
  datatype MemType = MemType(precision: Precision, complex: bool, matrix: bool)

  /** A real scalar type of the given precision (the plain `OSKAR_SINGLE` or
      `OSKAR_DOUBLE` type code). */
  function RealType(p: Precision): MemType
  {
    MemType(p, false, false)
  }

  /** `oskar_mem_is_scalar`: not a matrix type. */
  predicate IsScalar(t: MemType)
  {
    !t.matrix
  }

  /** What the type-checking and dispatch code reads of an `oskar_Mem`. */
  datatype MemDesc = MemDesc(memType: MemType, location: Location, length: nat)
}
