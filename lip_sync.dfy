/** The lip-sync volume analyser: folds the analyser's time-domain window
    into one mouth-open value in [0, 1] (app/lib/LipSync.ts). */
module LipSync {

  import opened Numbers

  /** `analyser.fftSize`: the analysis window holds this many samples. */
  const FftSize: nat := 2048

  /** Amplification applied to the mean absolute amplitude before the cap. */
  const Amplification: real := 5.0

  /** Sum of the absolute sample values, accumulated front to back. */
  function SumAbs(s: seq<real>): real
  {
    if s == [] then 0.0 else SumAbs(s[..|s| - 1]) + Abs(s[|s| - 1])
  }

  /** Mean absolute amplitude of a non-empty window. */
  function Mean(s: seq<real>): real
    requires |s| > 0
  {
    SumAbs(s) / |s| as real
  }

  /** The value `getVolume` reports for a filled window: min(5 * mean, 1). */
  function Volume(s: seq<real>): real
    requires |s| > 0
  {
    var amplified := Mean(s) * Amplification;
    if amplified < 1.0 then amplified else 1.0
  }

  lemma {:induction false} SumAbsNonNegative(s: seq<real>)
    ensures SumAbs(s) >= 0.0
  {
    if s != [] {
      SumAbsNonNegative(s[..|s| - 1]);
    }
  }

  lemma {:induction false} SumAbsOfSilence(s: seq<real>)
    requires forall i :: 0 <= i < |s| ==> s[i] == 0.0
    ensures SumAbs(s) == 0.0
  {
    if s != [] {
      SumAbsOfSilence(s[..|s| - 1]);
    }
  }

  /** Raising the magnitude of the sample at `k`, all others fixed, never lowers the sum. */
  lemma {:induction false} SumAbsMonotone(s: seq<real>, t: seq<real>, k: nat)
    requires |s| == |t| && k < |s|
    requires forall i :: 0 <= i < |s| && i != k ==> s[i] == t[i]
    requires Abs(s[k]) <= Abs(t[k])
    ensures SumAbs(s) <= SumAbs(t)
  {
    var n := |s| - 1;
    if k == n {
      assert s[..n] == t[..n];
    } else {
      SumAbsMonotone(s[..n], t[..n], k);
    }
  }

  /** The reported volume always lies in [0, 1]. */
  lemma VolumeInUnitRange(s: seq<real>)
    requires |s| > 0
    ensures 0.0 <= Volume(s) <= 1.0
  {
    SumAbsNonNegative(s);
  }

  /** An all-zero window reports exactly 0. */
  lemma SilentWindowIsMute(s: seq<real>)
    requires |s| > 0
    requires forall i :: 0 <= i < |s| ==> s[i] == 0.0
    ensures Volume(s) == 0.0
  {
    SumAbsOfSilence(s);
  }

  /** A mean absolute amplitude of at least 0.2 saturates the output at 1. */
  lemma LoudWindowSaturates(s: seq<real>)
    requires |s| > 0 && Mean(s) >= 0.2
    ensures Volume(s) == 1.0
  {
  }

  /** Below saturation the output is exactly five times the mean. */
  lemma QuietWindowIsAmplifiedMean(s: seq<real>)
    requires |s| > 0 && Mean(s) < 0.2
    ensures Volume(s) == 5.0 * Mean(s) && Volume(s) < 1.0
  {
  }

  /** Increasing any one sample's magnitude never decreases the volume. */
  lemma VolumeMonotone(s: seq<real>, t: seq<real>, k: nat)
    requires |s| == |t| && k < |s|
    requires forall i :: 0 <= i < |s| && i != k ==> s[i] == t[i]
    requires Abs(s[k]) <= Abs(t[k])
    ensures Volume(s) <= Volume(t)
  {
    SumAbsMonotone(s, t, k);
    DivideMonotone(SumAbs(s), SumAbs(t), |s| as real);
  }

  lemma DivideMonotone(a: real, b: real, n: real)
    requires a <= b && n > 0.0
    ensures a / n <= b / n
  {
    assert b / n - a / n == (b - a) / n;
  }

  /** The averaging loop of `getVolume` over a filled window. */
  method MeanAmplitudeVolume(data: array<real>) returns (v: real)
    requires data.Length > 0
    ensures v == Volume(data[..])
  {
    var sum := 0.0;
    for i := 0 to data.Length
      invariant sum == SumAbs(data[..i])
    {
      assert data[..i + 1][..i] == data[..i];
      sum := sum + Abs(data[i]);
    }
    assert data[..data.Length] == data[..];
    var volume := sum / data.Length as real;
    v := if volume * Amplification < 1.0 then volume * Amplification else 1.0;
  }

  /** The `LipSync` object: an analyser and its sample buffer, both absent
      until an analysis has been started successfully. */
  class LipSync {
    var hasAnalyser: bool
    var dataArray: array?<real>

    ghost predicate Valid()
      reads this
    {
      dataArray != null ==> dataArray.Length == FftSize
    }

    constructor ()
      ensures Valid() && !hasAnalyser && dataArray == null
    {
      hasAnalyser := false;
      dataArray := null;
    }

    /** `startAnalysis`: `decoded` is whether fetching and decoding the asset
        succeeded. On success the analyser and a zeroed 2048-entry buffer are
        installed and a source is returned; on failure the result is null
        (false) and the previous analyser and buffer stay as they were. */
    method StartAnalysis(decoded: bool) returns (source: bool)
      requires Valid()
      modifies this
      ensures Valid()
      ensures source == decoded
      ensures decoded ==> hasAnalyser && dataArray != null && fresh(dataArray)
      ensures decoded ==> forall i :: 0 <= i < dataArray.Length ==> dataArray[i] == 0.0
      ensures !decoded ==> hasAnalyser == old(hasAnalyser) && dataArray == old(dataArray)
    {
      if !decoded {
        return false;
      }
      hasAnalyser := true;
      dataArray := new real[FftSize](_ => 0.0);
      source := true;
    }

    /** `getVolume`: `live` is the analyser's current time-domain data. With
        no analyser or no buffer the result is 0 and nothing is touched;
        otherwise the buffer is refilled from `live` and folded. */
    method GetVolume(live: seq<real>) returns (v: real)
      requires Valid()
      requires hasAnalyser && dataArray != null ==> |live| == FftSize
      modifies dataArray
      ensures Valid() && hasAnalyser == old(hasAnalyser) && dataArray == old(dataArray)
      ensures !hasAnalyser || dataArray == null ==> v == 0.0
      ensures !hasAnalyser && dataArray != null ==> unchanged(dataArray)
      ensures hasAnalyser && dataArray != null ==> dataArray[..] == live && v == Volume(live)
      ensures 0.0 <= v <= 1.0
    {
      if !hasAnalyser || dataArray == null {
        return 0.0;
      }
      forall i | 0 <= i < dataArray.Length {
        dataArray[i] := live[i];
      }
      v := MeanAmplitudeVolume(dataArray);
      VolumeInUnitRange(live);
    }
  }
}
