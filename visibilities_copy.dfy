/** `oskar_visibilities_copy`: copy the metadata, then the six arrays in a
    fixed order, stopping at the first failed copy. */
module VisibilitiesCopy {
  import opened Status

  /** The arrays of a visibility structure, named after their fields. */
  datatype VisArray = SettingsPath | SkyNoiseStddev | UU | VV | WW | Amplitude

  /** The order in which the arrays are copied. */
  const CopyOrder: seq<VisArray> := [SettingsPath, SkyNoiseStddev, UU, VV, WW, Amplitude]

  /** The ten metadata fields, gathered for comparison. */
  datatype Metadata = Metadata(
    numChannels: int, numTimes: int, numBaselines: int,
    freqStartHz: real, freqIncHz: real, channelBandwidthHz: real,
    timeStartMjdUtc: real, timeIncSeconds: real,
    phaseCentreRaDeg: real, phaseCentreDecDeg: real)

  class Visibilities {
    var numChannels: int
    var numTimes: int
    var numBaselines: int
    var freqStartHz: real
    var freqIncHz: real
    var channelBandwidthHz: real
    var timeStartMjdUtc: real
    var timeIncSeconds: real
    var phaseCentreRaDeg: real
    var phaseCentreDecDeg: real
    // Array contents; the element values are opaque to the copy.
    var settingsPath: seq<int>
    var skyNoiseStddev: seq<int>
    var uu: seq<int>
    var vv: seq<int>
    var ww: seq<int>
    var amplitude: seq<int>

    constructor ()
    {
    }

    function Meta(): Metadata
      reads this
    {
      Metadata(numChannels, numTimes, numBaselines, freqStartHz, freqIncHz,
               channelBandwidthHz, timeStartMjdUtc, timeIncSeconds,
               phaseCentreRaDeg, phaseCentreDecDeg)
    }

    function Array(a: VisArray): seq<int>
      reads this
    {
      match a
      case SettingsPath => settingsPath
      case SkyNoiseStddev => skyNoiseStddev
      case UU => uu
      case VV => vv
      case WW => ww
      case Amplitude => amplitude
    }
  }

  /** The position of the first failed status in `errs`, or `|errs|` if none
      failed. */
  function FirstFailure(errs: seq<Status>): (k: nat)
    ensures k <= |errs|
    ensures forall i :: 0 <= i < k ==> errs[i] == Ok
    ensures k < |errs| ==> errs[k] != Ok
  {
    if errs == [] then 0
    else if errs[0] != Ok then 0
    else 1 + FirstFailure(errs[1..])
  }

  /** The arrays after the first `i` copies succeeded: the source's up to
      `i`, the destination's own from `i` on. */
  function Merged(S: seq<seq<int>>, D: seq<seq<int>>, i: nat): (r: seq<seq<int>>)
    requires |S| == |D| && i <= |S|
    ensures |r| == |S|
    ensures forall j :: 0 <= j < |r| ==> r[j] == if j < i then S[j] else D[j]
  {
    S[..i] + D[i..]
  }

  /** One more successful copy extends the merged prefix by one. */
  lemma MergedStep(S: seq<seq<int>>, D: seq<seq<int>>, i: nat)
    requires |S| == |D| && i < |S|
    ensures Merged(S, D, i)[i := S[i]] == Merged(S, D, i + 1)
  {
    var a, b := Merged(S, D, i)[i := S[i]], Merged(S, D, i + 1);
    assert forall j :: 0 <= j < |S| ==> a[j] == b[j] by {
      forall j | 0 <= j < |S| ensures a[j] == b[j] {
        if j < i {
          assert a[j] == Merged(S, D, i)[..i][j];
        } else if j > i {
          assert a[j] == Merged(S, D, i)[i..][j - i];
          assert b[j] == Merged(S, D, i + 1)[i + 1..][j - i - 1];
        }
      }
    }
  }

  /** The outcome promised by the copy: with `k` the first failed copy,
      the result is its status (`Ok` if none failed), the arrays before `k`
      equal the source's and the arrays after `k` are untouched. */
  predicate CopiedUntilFailure(A: seq<seq<int>>, S: seq<seq<int>>, D: seq<seq<int>>,
                               errs: seq<Status>, err: Status)
    requires |A| == |S| == |D| == |errs|
  {
    var k := FirstFailure(errs);
    && err == (if k < |errs| then errs[k] else Ok)
    && (forall i :: 0 <= i < k ==> A[i] == S[i])
    && (forall i :: k < i < |errs| ==> A[i] == D[i])
  }

  /** Stopping after `i` successful copies, with the arrays merged so far,
      gives the promised outcome. */
  lemma StoppedAt(S: seq<seq<int>>, D: seq<seq<int>>, errs: seq<Status>, i: nat)
    requires |S| == |D| == |errs| && i <= |errs|
    requires forall j :: 0 <= j < i ==> errs[j] == Ok
    requires i < |errs| ==> errs[i] != Ok
    ensures CopiedUntilFailure(Merged(S, D, i), S, D, errs, if i < |errs| then errs[i] else Ok)
  {
    assert FirstFailure(errs) == i;
    var A := Merged(S, D, i);
    forall j | 0 <= j < i ensures A[j] == S[j] {
      assert A[j] == A[..i][j];
    }
    forall j | i < j < |errs| ensures A[j] == D[j] {
      assert A[j] == A[i..][j - i];
    }
  }

  /** The statuses of the six array copies, in copy order. */
  function CopyStatuses(copyStatus: VisArray -> Status): (errs: seq<Status>)
    ensures |errs| == 6 && forall i :: 0 <= i < 6 ==> errs[i] == copyStatus(CopyOrder[i])
  {
    [copyStatus(SettingsPath), copyStatus(SkyNoiseStddev), copyStatus(UU),
     copyStatus(VV), copyStatus(WW), copyStatus(Amplitude)]
  }

  /** The six arrays of `v`, in copy order. */
  function Arrays(v: Visibilities): (arrays: seq<seq<int>>)
    reads v
    ensures |arrays| == 6
  {
    [v.settingsPath, v.skyNoiseStddev, v.uu, v.vv, v.ww, v.amplitude]
  }

  /** Position `i` of `Arrays(v)` is the field of `CopyOrder[i]`. */
  lemma ArraysInCopyOrder(v: Visibilities)
    ensures forall i :: 0 <= i < 6 ==> Arrays(v)[i] == v.Array(CopyOrder[i])
  {
  }

  /** `oskar_mem_copy` of the `i`-th array in copy order: on success the
      destination array equals the source array; on failure it is left as it
      was. `copyStatus` is the status the copy reports. */
  method CopyArray(dst: Visibilities, src: Visibilities, i: nat,
                   copyStatus: VisArray -> Status) returns (err: Status)
    requires i < 6
    modifies dst
    ensures err == copyStatus(CopyOrder[i])
    ensures Arrays(dst) == if err == Ok then old(Arrays(dst))[i := old(Arrays(src))[i]] else old(Arrays(dst))
    ensures dst.Meta() == old(dst.Meta())
    ensures src.Meta() == old(src.Meta()) && Arrays(src) == old(Arrays(src))
  {
    err := copyStatus(CopyOrder[i]);
    if err != Ok {
      return;
    }
    if i == 0 {
      dst.settingsPath := src.settingsPath;
    } else if i == 1 {
      dst.skyNoiseStddev := src.skyNoiseStddev;
    } else if i == 2 {
      dst.uu := src.uu;
    } else if i == 3 {
      dst.vv := src.vv;
    } else if i == 4 {
      dst.ww := src.ww;
    } else {
      dst.amplitude := src.amplitude;
    }
  }

  /** One step of the copy sequence: copy the `i`-th array after the first
      `i` succeeded. On success the merged prefix grows by one; on failure
      the promised outcome holds already. */
  method CopyStep(dst: Visibilities, src: Visibilities, i: nat, copyStatus: VisArray -> Status,
                  ghost S: seq<seq<int>>, ghost D: seq<seq<int>>) returns (err: Status)
    requires i < 6 && |S| == |D| == 6
    requires forall j :: 0 <= j < i ==> CopyStatuses(copyStatus)[j] == Ok
    requires Arrays(dst) == Merged(S, D, i) && Arrays(src) == S
    modifies dst
    ensures dst.Meta() == old(dst.Meta())
    ensures src.Meta() == old(src.Meta()) && Arrays(src) == S
    ensures err == CopyStatuses(copyStatus)[i]
    ensures err == Ok ==> Arrays(dst) == Merged(S, D, i + 1)
    ensures err != Ok ==> CopiedUntilFailure(Arrays(dst), S, D, CopyStatuses(copyStatus), err)
  {
    err := CopyArray(dst, src, i, copyStatus);
    if err != Ok {
      StoppedAt(S, D, CopyStatuses(copyStatus), i);
    } else {
      MergedStep(S, D, i);
    }
  }

  /** The metadata assignments, field by field. */
  method CopyMetadata(dst: Visibilities, src: Visibilities)
    modifies dst
    ensures dst.Meta() == old(src.Meta())
    ensures src.Meta() == old(src.Meta())
    ensures Arrays(dst) == old(Arrays(dst)) && Arrays(src) == old(Arrays(src))
  {
    dst.numChannels := src.numChannels;
    dst.numTimes := src.numTimes;
    dst.numBaselines := src.numBaselines;
    dst.freqStartHz := src.freqStartHz;
    dst.freqIncHz := src.freqIncHz;
    dst.channelBandwidthHz := src.channelBandwidthHz;
    dst.timeStartMjdUtc := src.timeStartMjdUtc;
    dst.timeIncSeconds := src.timeIncSeconds;
    dst.phaseCentreRaDeg := src.phaseCentreRaDeg;
    dst.phaseCentreDecDeg := src.phaseCentreDecDeg;
  }

  /** The six array copies in `CopyOrder`, each followed by a return of
      its status when it failed. */
  method CopyArrays(dst: Visibilities, src: Visibilities, copyStatus: VisArray -> Status)
    returns (err: Status)
    modifies dst
    ensures CopiedUntilFailure(Arrays(dst), old(Arrays(src)), old(Arrays(dst)), CopyStatuses(copyStatus), err)
    ensures dst.Meta() == old(dst.Meta())
    ensures src.Meta() == old(src.Meta()) && Arrays(src) == old(Arrays(src))
  {
    ghost var S := Arrays(src);
    ghost var D := Arrays(dst);
    assert Arrays(dst) == Merged(S, D, 0);
    err := CopyStep(dst, src, 0, copyStatus, S, D);
    if err != Ok { return; }
    err := CopyStep(dst, src, 1, copyStatus, S, D);
    if err != Ok { return; }
    err := CopyStep(dst, src, 2, copyStatus, S, D);
    if err != Ok { return; }
    err := CopyStep(dst, src, 3, copyStatus, S, D);
    if err != Ok { return; }
    err := CopyStep(dst, src, 4, copyStatus, S, D);
    if err != Ok { return; }
    err := CopyStep(dst, src, 5, copyStatus, S, D);
    if err != Ok { return; }
    StoppedAt(S, D, CopyStatuses(copyStatus), 6);
  }

  /** `oskar_visibilities_copy`. A null argument is an invalid argument and
      changes nothing; otherwise the metadata are copied, then the arrays in
      `CopyOrder` until the first copy that fails, whose status is returned:
      the arrays before it equal the source's, the arrays after it are
      untouched. */
  method VisibilitiesCopy(dst: Visibilities?, src: Visibilities?,
                          copyStatus: VisArray -> Status) returns (err: Status)
    modifies dst
    ensures dst == null || src == null ==> err == Error(InvalidArgument)
    ensures dst != null && src != null ==>
      dst.Meta() == old(src.Meta()) &&
      CopiedUntilFailure(Arrays(dst), old(Arrays(src)), old(Arrays(dst)), CopyStatuses(copyStatus), err)
    ensures src != null ==> src.Meta() == old(src.Meta()) && Arrays(src) == old(Arrays(src))
    ensures dst != null && src == null ==> dst.Meta() == old(dst.Meta()) && Arrays(dst) == old(Arrays(dst))
  {
    if dst == null || src == null {
      return Error(InvalidArgument);
    }
    CopyMetadata(dst, src);
    err := CopyArrays(dst, src, copyStatus);
  }
}
