/** `oskar_evaluate_array_pattern_hierarchical`: the argument checks, the
    resize rule for the output beam and the choice of beamforming kernel.
    The kernels themselves (direct Fourier transforms) are abstract. */
module ArrayPattern {
  import opened Status
  import opened MemTypes

  /** What the function reads from the station: its precision, memory
      location and whether its element coordinates are three-dimensional. */
  datatype StationInfo = StationInfo(precision: Precision, location: Location, arrayIs3d: bool)

  /** The six arrays the function receives. */
  datatype Operands = Operands(beam: MemDesc, x: MemDesc, y: MemDesc, z: MemDesc,
                               signal: MemDesc, weights: MemDesc)

  /** Matrix-to-matrix or complex-to-complex beamforming. */
  datatype Shape = MatrixToMatrix | ComplexToComplex

  /** One of the sixteen kernels: shape, 2-D or 3-D, precision, device. */
  datatype Kernel = Kernel(shape: Shape, is3d: bool, precision: Precision, location: Location)

  /** What one call does: the final status, the length the beam is
      reallocated to (if any) and the kernel that runs (if any). */
  datatype Outcome = Outcome(status: Status, resizeTo: Option<nat>, kernel: Option<Kernel>)

  const TwoTo31: int := 0x8000_0000
  const TwoTo32: int := 0x1_0000_0000
  const TwoTo64: int := 0x1_0000_0000_0000_0000

  /** The C cast `(int)` of a `size_t`: the value modulo 2^32, read as a
      signed 32-bit integer. */
  function Int32Of(n: nat): (r: int)
    ensures -TwoTo31 <= r < TwoTo31
    ensures n < TwoTo31 ==> r == n
    ensures (r - n) % TwoTo32 == 0
  {
    var m := n % TwoTo32;
    if m < TwoTo31 then m else m - TwoTo32
  }

  /** The conversion of the `int` point count to the `size_t` length
      `oskar_mem_realloc` takes: the value modulo 2^64. */
  function SizeOf(n: int): (r: nat)
    ensures r < TwoTo64
    ensures 0 <= n < TwoTo64 ==> r == n
  {
    n % TwoTo64
  }

  function Arrays(ops: Operands): seq<MemDesc>
  {
    [ops.beam, ops.x, ops.y, ops.z, ops.signal, ops.weights]
  }

  /** Every array lives where the station does. */
  predicate CoLocated(st: StationInfo, ops: Operands)
  {
    forall m :: m in Arrays(ops) ==> m.location == st.location
  }

  /** Beam, signal and weights are complex, and weights are not a matrix. */
  predicate ComplexOperands(ops: Operands)
  {
    && (forall m :: m in [ops.beam, ops.signal, ops.weights] ==> m.memType.complex)
    && !ops.weights.memType.matrix
  }

  /** The coordinates are real scalars of the station's precision, and
      beam, signal and weights have the station's precision. */
  predicate PrecisionsMatch(st: StationInfo, ops: Operands)
  {
    && (forall m :: m in [ops.x, ops.y, ops.z] ==> m.memType == RealType(st.precision))
    && (forall m :: m in [ops.beam, ops.signal, ops.weights] ==> m.memType.precision == st.precision)
  }

  /** The checks before the resize, in the order the function makes them:
      co-location first, then the complex/matrix types, then precisions. */
  function Check(st: StationInfo, ops: Operands): (s: Status)
    ensures s == Ok <==> CoLocated(st, ops) && ComplexOperands(ops) && PrecisionsMatch(st, ops)
    ensures s == Error(LocationMismatch) <==> !CoLocated(st, ops)
    ensures s == Error(BadDataType) <==> CoLocated(st, ops) && !ComplexOperands(ops)
    ensures s == Error(TypeMismatch) <==>
      CoLocated(st, ops) && ComplexOperands(ops) && !PrecisionsMatch(st, ops)
  {
    var loc := st.location;
    var prec := st.precision;
    if ops.beam.location != loc || ops.x.location != loc || ops.y.location != loc
       || ops.z.location != loc || ops.signal.location != loc || ops.weights.location != loc
    then
      Error(LocationMismatch)
    else if !ops.beam.memType.complex || !ops.signal.memType.complex
            || !ops.weights.memType.complex || ops.weights.memType.matrix
    then
      Error(BadDataType)
    else if ops.x.memType != RealType(prec) || ops.y.memType != RealType(prec)
            || ops.z.memType != RealType(prec) || ops.beam.memType.precision != prec
            || ops.signal.memType.precision != prec || ops.weights.memType.precision != prec
    then
      Error(TypeMismatch)
    else
      Ok
  }

  /** The switch on precision, shape and location after the resize. A
      beam/signal pair that is neither both matrix nor both scalar runs
      nothing and keeps the status. */
  function Dispatch(st: StationInfo, beam: MemType, signal: MemType, haveCuda: bool,
                    deviceCheck: Status): (r: (Status, Option<Kernel>))
    ensures st.precision !in {Single, Double} ==> r == (Error(BadDataType), None)
    ensures r.1.Some? <==>
      && st.precision in {Single, Double}
      && beam.matrix == signal.matrix
      && (st.location == Cpu || (st.location == Gpu && haveCuda))
    ensures r.1.Some? ==>
      && r.1.value.shape == (if beam.matrix then MatrixToMatrix else ComplexToComplex)
      && r.1.value.is3d == st.arrayIs3d
      && r.1.value.precision == st.precision
      && r.1.value.location == st.location
    ensures st.precision in {Single, Double} && beam.matrix != signal.matrix ==> r.0 == Ok
    ensures st.precision in {Single, Double} && beam.matrix == signal.matrix ==>
      r.0 == match st.location
             case Cpu => Ok
             case Gpu => if haveCuda then deviceCheck else Error(CudaNotAvailable)
             case OtherLocation(_) => Error(BadLocation)
  {
    if st.precision == Double || st.precision == Single then
      var matrixType := beam.matrix && signal.matrix;
      var scalarType := IsScalar(beam) && IsScalar(signal);
      if matrixType || scalarType then
        var shape := if matrixType then MatrixToMatrix else ComplexToComplex;
        var kernel := Kernel(shape, st.arrayIs3d, st.precision, st.location);
        if st.location == Gpu then
          if haveCuda then (deviceCheck, Some(kernel)) else (Error(CudaNotAvailable), None)
        else if st.location == Cpu then
          (Ok, Some(kernel))
        else
          (Error(BadLocation), None)
      else
        (Ok, None)
    else
      (Error(BadDataType), None)
  }

  /** The whole call as a decision: entry status, checks, resize (whose
      status is `reallocStatus`), then dispatch. */
  function Evaluate(status: Status, st: StationInfo, ops: Operands, numPoints: int,
                    reallocStatus: Status, haveCuda: bool, deviceCheck: Status): (o: Outcome)
    ensures status != Ok ==> o == Outcome(status, None, None)
    ensures status == Ok && Check(st, ops) != Ok ==> o == Outcome(Check(st, ops), None, None)
    ensures o.resizeTo.Some? <==>
      status == Ok && Check(st, ops) == Ok && Int32Of(ops.beam.length) < numPoints
    ensures o.resizeTo.Some? ==> o.resizeTo.value == SizeOf(numPoints)
    ensures o.resizeTo.Some? && reallocStatus != Ok ==> o.status == reallocStatus && o.kernel == None
    ensures status == Ok && Check(st, ops) == Ok && (o.resizeTo.None? || reallocStatus == Ok) ==>
      (o.status, o.kernel) == Dispatch(st, ops.beam.memType, ops.signal.memType, haveCuda, deviceCheck)
    ensures o.kernel.Some? ==>
      status == Ok && CoLocated(st, ops) && ComplexOperands(ops) && PrecisionsMatch(st, ops)
  {
    if status != Ok then
      Outcome(status, None, None)
    else
      var checked := Check(st, ops);
      if checked != Ok then
        Outcome(checked, None, None)
      else
        var resize := if Int32Of(ops.beam.length) < numPoints then Some(SizeOf(numPoints)) else None;
        var afterResize := if resize.Some? then reallocStatus else Ok;
        if afterResize != Ok then
          Outcome(afterResize, resize, None)
        else
          var d := Dispatch(st, ops.beam.memType, ops.signal.memType, haveCuda, deviceCheck);
          Outcome(d.0, resize, d.1)
  }

  /** The beam is never shrunk while its length fits in an `int`. */
  lemma NeverShrinks(status: Status, st: StationInfo, ops: Operands, numPoints: int,
                     reallocStatus: Status, haveCuda: bool, deviceCheck: Status)
    requires ops.beam.length < TwoTo31 && numPoints < TwoTo31
    ensures var o := Evaluate(status, st, ops, numPoints, reallocStatus, haveCuda, deviceCheck);
            o.resizeTo.Some? ==> o.resizeTo.value > ops.beam.length
  {
  }

  /** A beam of 2^31 elements reads as negative through the `(int)` cast,
      so a request for one point reallocates it down to one element. */
  lemma HugeBeamShrinks(st: StationInfo, ops: Operands)
    requires Check(st, ops) == Ok && ops.beam.length == TwoTo31
    ensures Evaluate(Ok, st, ops, 1, Ok, true, Ok).resizeTo == Some(1)
  {
  }

  /** The beam as `oskar_Mem`: type, location, length and values. */
  class Beam {
    var memType: MemType
    var location: Location
    var length: nat
    var values: seq<int>

    constructor (memType: MemType, location: Location, values: seq<int>)
      ensures this.memType == memType && this.location == location
      ensures this.length == |values| && this.values == values
    {
      this.memType := memType;
      this.location := location;
      this.length := |values|;
      this.values := values;
    }

    function Desc(): MemDesc
      reads this
    {
      MemDesc(memType, location, length)
    }
  }

  /** The call on a beam object: the decision of `Evaluate`, then the resize
      (a successful `oskar_mem_realloc` sets the length; a failed one is
      assumed to leave the beam as it was) and the kernel, whose output
      `dft` gives. */
  method EvaluateArrayPattern(beam: Beam, st: StationInfo, numPoints: int,
                              x: MemDesc, y: MemDesc, z: MemDesc, signal: MemDesc, weights: MemDesc,
                              status: Status, reallocStatus: Status, haveCuda: bool, deviceCheck: Status,
                              dft: (Kernel, int) -> seq<int>)
    returns (result: Status)
    modifies beam
    ensures var o := Evaluate(status, st, Operands(old(beam.Desc()), x, y, z, signal, weights),
                              numPoints, reallocStatus, haveCuda, deviceCheck);
      && result == o.status
      && beam.memType == old(beam.memType) && beam.location == old(beam.location)
      && beam.length == (if o.resizeTo.Some? && reallocStatus == Ok then o.resizeTo.value
                         else old(beam.length))
      && beam.values == (if o.kernel.Some? then dft(o.kernel.value, numPoints) else old(beam.values))
  {
    var o := Evaluate(status, st, Operands(beam.Desc(), x, y, z, signal, weights),
                      numPoints, reallocStatus, haveCuda, deviceCheck);
    if o.resizeTo.Some? && reallocStatus == Ok {
      beam.length := o.resizeTo.value;
    }
    if o.kernel.Some? {
      beam.values := dft(o.kernel.value, numPoints);
    }
    result := o.status;
  }
}
