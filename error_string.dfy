/** `oskar_get_error_string`: a fixed message for every status code. */
module ErrorString {
  import opened Status

  const UnknownError := "unknown error."

  /** The thirteen OSKAR codes that have their own message. */
  predicate Listed(e: ErrorCode)
  {
    e in {EndOfFile, FileIO, InvalidArgument, MemoryAllocFailure, MemoryNotAllocated,
          TypeMismatch, DimensionMismatch, BadLocation, BadDataType, BadJonesType,
          OutOfRange, VersionMismatch, BadUnits}
  }

  /** The message of a listed OSKAR code. */
  function Message(e: ErrorCode): (m: string)
    requires Listed(e)
  {
    match e
    case EndOfFile => "end of file"
    case FileIO => "file I/O error"
    case InvalidArgument => "invalid argument"
    case MemoryAllocFailure => "memory allocation failure"
    case MemoryNotAllocated => "memory not allocated"
    case TypeMismatch => "data type mismatch"
    case DimensionMismatch => "data dimension mismatch"
    case BadLocation => "unsupported pointer location"
    case BadDataType => "unsupported data type"
    case BadJonesType => "unsupported data type for Jones matrix"
    case OutOfRange => "memory location out of range"
    case VersionMismatch => "incompatible OSKAR version"
    case BadUnits => "invalid units"
  }

  /** All fourteen strings the function can return for a non-positive code. */
  const FixedStrings: set<string> :=
    {"end of file", "file I/O error", "invalid argument", "memory allocation failure",
     "memory not allocated", "data type mismatch", "data dimension mismatch",
     "unsupported pointer location", "unsupported data type",
     "unsupported data type for Jones matrix", "memory location out of range",
     "incompatible OSKAR version", "invalid units", UnknownError}

  /** Positive (CUDA) codes are handed to `cudaMessage`, the CUDA runtime's own
      error-string function; every other code gets a fixed string. */
  function GetErrorString(code: Status, cudaMessage: CudaCode -> string): (m: string)
    ensures code.Device? ==> m == cudaMessage(code.cuda)
    ensures code.Error? && Listed(code.code) ==> m == Message(code.code)
    ensures code == Ok || (code.Error? && !Listed(code.code)) ==> m == UnknownError
    ensures !code.Device? ==> m in FixedStrings
  {
    match code
    case Device(n) => cudaMessage(n)
    case Error(e) => if Listed(e) then Message(e) else UnknownError
    case Ok => UnknownError
  }

  /** Distinct listed codes have distinct messages, and none of them reads
      "unknown error.". */
  lemma MessagesDistinct(e1: ErrorCode, e2: ErrorCode)
    requires Listed(e1) && Listed(e2)
    ensures Message(e1) == Message(e2) ==> e1 == e2
    ensures Message(e1) != UnknownError
  {
  }
}
