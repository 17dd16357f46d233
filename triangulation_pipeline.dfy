/** `TriangulationPipeline`: the signal utilities (DC removal, Hamming window), the STA/LTA
  * onset picker, FFT cross-correlation with a first-argmax peak and parabolic refinement, and
  * safe window slicing. The Gauss-Newton solver is in `TdoaLocalizer`, the transform in
  * `FftUtils`. */
module TriangulationPipeline {
  import opened Wrappers
  import opened RealMath
  import opened SignalMath
  import opened FftUtils

  /** A waveform ready for the pipeline: samples, sampling rate (Hz) and start time (s). */
  datatype Signal = Signal(samples: seq<real>, fs: real, startSec: real)
  {
    /** Seconds between two neighbouring samples. */
    function Dt(): real requires fs != 0.0 { 1.0 / fs }

    /** Absolute time of sample `i`. */
    function TimeOfSample(i: int): real requires fs != 0.0 { startSec + i as real * Dt() }
  }

  // ---------------------------------------------------------------- demean / window

  /** `demean`: every sample minus the mean of all samples. */
  method Demean(x: array<real>) returns (out: array<real>)
    ensures out[..] == Demeaned(x[..])
  {
    var mean := 0.0;
    for i := 0 to x.Length
      invariant mean == Sum(x[..i])
    {
      assert x[..i + 1][..i] == x[..i];
      mean := mean + x[i];
    }
    assert x[..x.Length] == x[..];
    // The source divides by the length even when it is zero; the NaN it gets is never read,
    // since the output is then empty.
    if x.Length > 0 {
      mean := mean / x.Length as real;
    }
    out := new real[x.Length];
    for i := 0 to x.Length
      invariant forall j :: 0 <= j < i ==> out[j] == x[j] - mean
    {
      out[i] := x[i] - mean;
    }
    if x.Length > 0 {
      assert mean == Mean(x[..]);
      assert forall j :: 0 <= j < x.Length ==> out[..][j] == Demeaned(x[..])[j];
    }
  }

  /** `applyHamming`: each sample times 0.54 - 0.46 cos(2 pi i / (n - 1)). A single sample
    * (window of width 0, a division by zero) is excluded. */
  method ApplyHamming(trig: Trig, x: array<real>) returns (out: array<real>)
    requires x.Length != 1
    ensures out[..] == HammingWindowed(trig, x[..])
  {
    var n := x.Length;
    var w := new real[n];
    var m := n - 1;
    for i := 0 to n
      invariant forall j :: 0 <= j < i ==> w[j] == HammingWeight(trig, j, m)
    {
      w[i] := HammingWeight(trig, i, m);
    }
    out := new real[n];
    for i := 0 to n
      invariant forall j :: 0 <= j < n ==> w[j] == HammingWeight(trig, j, m)
      invariant forall j :: 0 <= j < i ==> out[j] == Times(x[j], HammingWeight(trig, j, m))
    {
      out[i] := Times(x[i], w[i]);
    }
    assert forall j :: 0 <= j < n ==> out[..][j] == HammingWindowed(trig, x[..])[j];
  }

  // ---------------------------------------------------------------- STA/LTA

  /** The short and long window lengths in samples. */
  datatype Windows = Windows(staN: int, ltaN: int)

  /** Seconds to samples, at least one sample each; a long window not longer than the short
    * one is widened to twice the short one. */
  function WindowLengths(fs: real, staSec: real, ltaSec: real): (w: Windows)
    ensures 1 <= w.staN < w.ltaN
  {
    var staN := MaxInt(1, JavaRound(staSec * fs));
    var ltaN := MaxInt(1, JavaRound(ltaSec * fs));
    Windows(staN, if ltaN <= staN then staN * 2 else ltaN)
  }

  /** Energy of a sequence: the sum of its squared samples, accumulated left to right. */
  function SumSquares(s: seq<real>): real
  {
    if s == [] then 0.0 else SumSquares(s[..|s| - 1]) + Times(s[|s| - 1], s[|s| - 1])
  }

  /** Ratio of the short-window to the long-window mean energy; +infinity when the long
    * window has no energy. */
  datatype Ratio = PositiveInfinity | Finite(value: real)
  {
    predicate AtLeast(t: real) { PositiveInfinity? || value >= t }
    predicate AtMost(t: real) { Finite? && value <= t }
  }

  /** The ratio at sample `i`: the long window is the `ltaN` samples before `i`, the short
    * window the `staN` samples ending at `i`, each from differences of prefix energies. */
  function RatioAt(s: seq<real>, w: Windows, i: int): Ratio
    requires 1 <= w.staN < w.ltaN <= i < |s|
  {
    var lta := (SumSquares(s[..i]) - SumSquares(s[..i - w.ltaN])) / w.ltaN as real;
    var sta := (SumSquares(s[..i + 1]) - SumSquares(s[..MaxInt(0, i + 1 - w.staN)])) / w.staN as real;
    if lta <= 0.0 then PositiveInfinity else Finite(sta / lta)
  }

  predicate Triggers(s: seq<real>, w: Windows, thrOn: real, i: int)
    requires 1 <= w.staN < w.ltaN <= i < |s|
  {
    RatioAt(s, w, i).AtLeast(thrOn)
  }

  /** The first sample `i` with `from <= i <= |s| - 2` whose ratio reaches the on-threshold,
    * or -1. */
  function FirstTrigger(s: seq<real>, w: Windows, thrOn: real, from: int): int
    requires 1 <= w.staN < w.ltaN <= from
    decreases |s| - from
  {
    if from >= |s| - 1 then -1
    else if Triggers(s, w, thrOn, from) then from
    else FirstTrigger(s, w, thrOn, from + 1)
  }

  /** One step of the scan: sample `i` is the first trigger, or the search goes on at `i + 1`. */
  lemma FirstTriggerAt(s: seq<real>, w: Windows, thrOn: real, i: int)
    requires 1 <= w.staN < w.ltaN <= i < |s| - 1
    ensures FirstTrigger(s, w, thrOn, i)
         == if RatioAt(s, w, i).AtLeast(thrOn) then i else FirstTrigger(s, w, thrOn, i + 1)
  {
  }

  /** The pick of `staLtaPick`: the first trigger moved back by the short window, or -1. */
  function StaLtaSpec(s: seq<real>, fs: real, staSec: real, ltaSec: real, thrOn: real): int
  {
    var w := WindowLengths(fs, staSec, ltaSec);
    var t := FirstTrigger(s, w, thrOn, w.ltaN);
    if t == -1 then -1 else t - w.staN
  }

  /** `FirstTrigger` finds the first triggering sample of its range, or proves there is none. */
  lemma {:induction false} FirstTriggerIsFirst(s: seq<real>, w: Windows, thrOn: real, from: int)
    requires 1 <= w.staN < w.ltaN <= from
    ensures var t := FirstTrigger(s, w, thrOn, from);
            (t == -1 <==> forall i :: from <= i < |s| - 1 ==> !Triggers(s, w, thrOn, i))
            && (t != -1 ==> from <= t < |s| - 1 && Triggers(s, w, thrOn, t)
                            && forall i :: from <= i < t ==> !Triggers(s, w, thrOn, i))
  {
    FirstTriggerNone(s, w, thrOn, from);
    FirstTriggerFound(s, w, thrOn, from);
  }

  lemma {:induction false} FirstTriggerNone(s: seq<real>, w: Windows, thrOn: real, from: int)
    requires 1 <= w.staN < w.ltaN <= from
    ensures FirstTrigger(s, w, thrOn, from) == -1 <==> forall i :: from <= i < |s| - 1 ==> !Triggers(s, w, thrOn, i)
    decreases |s| - from
  {
    if from < |s| - 1 {
      FirstTriggerAt(s, w, thrOn, from);
      if !Triggers(s, w, thrOn, from) {
        FirstTriggerNone(s, w, thrOn, from + 1);
      }
    }
  }

  lemma {:induction false} FirstTriggerFound(s: seq<real>, w: Windows, thrOn: real, from: int)
    requires 1 <= w.staN < w.ltaN <= from
    ensures var t := FirstTrigger(s, w, thrOn, from);
            t != -1 ==> from <= t < |s| - 1 && Triggers(s, w, thrOn, t)
                        && forall i :: from <= i < t ==> !Triggers(s, w, thrOn, i)
    decreases |s| - from
  {
    if from < |s| - 1 {
      FirstTriggerAt(s, w, thrOn, from);
      if !Triggers(s, w, thrOn, from) {
        FirstTriggerFound(s, w, thrOn, from + 1);
      }
    }
  }

  /** What `staLtaPick` promises: -1 exactly when no sample `i` with `ltaN <= i <= ns - 2`
    * reaches the on-threshold (in particular when ns - 1 <= ltaN); otherwise the first such
    * `i` moved back by the short window, which is at least 1, so the clamp to 0 never fires. */
  lemma StaLtaSpecMeaning(s: seq<real>, fs: real, staSec: real, ltaSec: real, thrOn: real)
    ensures var w := WindowLengths(fs, staSec, ltaSec);
            var pick := StaLtaSpec(s, fs, staSec, ltaSec, thrOn);
            (pick == -1 <==> forall i :: w.ltaN <= i < |s| - 1 ==> !Triggers(s, w, thrOn, i))
            && (pick != -1 ==>
                  pick >= 1 && w.ltaN <= pick + w.staN < |s| - 1
                  && Triggers(s, w, thrOn, pick + w.staN)
                  && forall i :: w.ltaN <= i < pick + w.staN ==> !Triggers(s, w, thrOn, i))
  {
    var w := WindowLengths(fs, staSec, ltaSec);
    FirstTriggerIsFirst(s, w, thrOn, w.ltaN);
  }

  /** `staLtaPick`: the prefix-energy scan; the release branch and the clamp are dead code,
    * since the scan stops at the first trigger. */
  method StaLtaPick(x: array<real>, fs: real, staSec: real, ltaSec: real, thrOn: real, thrOff: real)
    returns (pick: int)
    ensures pick == StaLtaSpec(x[..], fs, staSec, ltaSec, thrOn)
  {
    var ns := x.Length;
    var staN := MaxInt(1, JavaRound(staSec * fs));
    var ltaN := MaxInt(1, JavaRound(ltaSec * fs));
    if ltaN <= staN {
      ltaN := staN * 2;
    }
    ghost var w := Windows(staN, ltaN);
    assert w == WindowLengths(fs, staSec, ltaSec);

    var pref := PrefixEnergies(x);
    var triggered := false;
    var triggerSample := -1;
    var i := ltaN;
    while i < ns - 1
      invariant ltaN <= i
      invariant !triggered && triggerSample == -1
      invariant forall k :: 0 <= k <= x.Length ==> pref[k] == SumSquares(x[..k])
      invariant FirstTrigger(x[..], w, thrOn, ltaN) == FirstTrigger(x[..], w, thrOn, i)
      decreases ns - i
    {
      var stop;
      triggered, triggerSample, stop := ScanSample(x, pref, staN, ltaN, thrOn, thrOff, i, triggered, triggerSample);
      if stop {
        break;
      }
      i := i + 1;
    }
    pick := triggerSample;
  }

  /** The body of the scan of `staLtaPick` at sample `i`, before any trigger: the ratio, the
    * trigger test with the onset one short window back and the clamp to 0, and the release
    * test, which cannot fire before a trigger. */
  method ScanSample(x: array<real>, pref: array<real>, staN: int, ltaN: int, thrOn: real, thrOff: real, i: int,
                    triggered: bool, triggerSample: int)
    returns (triggered': bool, triggerSample': int, stop: bool)
    requires 1 <= staN < ltaN <= i < x.Length - 1
    requires pref.Length == x.Length + 1
    requires forall k :: 0 <= k <= x.Length ==> pref[k] == SumSquares(x[..k])
    requires !triggered && triggerSample == -1
    ensures stop == triggered'
    ensures triggered' ==> FirstTrigger(x[..], Windows(staN, ltaN), thrOn, i) == i && triggerSample' == i - staN
    ensures !triggered' ==> triggerSample' == -1
                            && FirstTrigger(x[..], Windows(staN, ltaN), thrOn, i)
                               == FirstTrigger(x[..], Windows(staN, ltaN), thrOn, i + 1)
  {
    triggered', triggerSample', stop := triggered, triggerSample, false;
    var ratio := RatioFromPrefix(x, pref, staN, ltaN, i);
    FirstTriggerAt(x[..], Windows(staN, ltaN), thrOn, i);
    if !triggered' && ratio.AtLeast(thrOn) {
      triggered' := true;
      // The onset lies one short window back; i >= ltaN > staN keeps it positive.
      triggerSample' := i - staN;
      if triggerSample' < 0 {
        triggerSample' := 0;
      }
      stop := true;
    } else if triggered' && ratio.AtMost(thrOff) {
      stop := true;
    }
  }

  /** The ratio at sample `i` from the prefix energies, as the loop of `staLtaPick` computes it. */
  method RatioFromPrefix(x: array<real>, pref: array<real>, staN: int, ltaN: int, i: int) returns (ratio: Ratio)
    requires 1 <= staN < ltaN <= i < x.Length
    requires pref.Length == x.Length + 1
    requires forall k :: 0 <= k <= x.Length ==> pref[k] == SumSquares(x[..k])
    ensures ratio == RatioAt(x[..], Windows(staN, ltaN), i)
  {
    var ltaEnergy := (pref[i] - pref[i - ltaN]) / ltaN as real;
    var staEnergy := (pref[i + 1] - pref[MaxInt(0, i + 1 - staN)]) / staN as real;
    ratio := if ltaEnergy <= 0.0 then PositiveInfinity else Finite(staEnergy / ltaEnergy);
    assert x[..][..i] == x[..i] && x[..][..i - ltaN] == x[..i - ltaN];
    assert x[..][..i + 1] == x[..i + 1] && x[..][..MaxInt(0, i + 1 - staN)] == x[..MaxInt(0, i + 1 - staN)];
  }

  /** The `sq` and `pref` arrays of `staLtaPick`: `pref[k]` is the energy of the first `k`
    * samples. */
  method PrefixEnergies(x: array<real>) returns (pref: array<real>)
    ensures pref.Length == x.Length + 1
    ensures forall k :: 0 <= k <= x.Length ==> pref[k] == SumSquares(x[..k])
  {
    var ns := x.Length;
    var sq := new real[ns];
    for i := 0 to ns
      invariant forall j :: 0 <= j < i ==> sq[j] == Times(x[j], x[j])
    {
      sq[i] := Times(x[i], x[i]);
    }
    pref := new real[ns + 1];
    pref[0] := 0.0;
    for i := 0 to ns
      invariant forall j :: 0 <= j < ns ==> sq[j] == Times(x[j], x[j])
      invariant forall k :: 0 <= k <= i ==> pref[k] == SumSquares(x[..k])
    {
      assert x[..i + 1][..i] == x[..i];
      pref[i + 1] := pref[i] + sq[i];
    }
  }

  lemma {:induction false} SumSquaresAppend(a: seq<real>, b: seq<real>)
    ensures SumSquares(a + b) == SumSquares(a) + SumSquares(b)
    decreases |b|
  {
    if b == [] {
      assert a + b == a;
    } else {
      assert (a + b)[..|a + b| - 1] == a + b[..|b| - 1];
      SumSquaresAppend(a, b[..|b| - 1]);
    }
  }

  /** The difference of two prefix energies is the energy of the window between them, which
    * is what `pref[j] - pref[i]` stands for in the picker. */
  lemma WindowEnergy(s: seq<real>, i: nat, j: nat)
    requires i <= j <= |s|
    ensures SumSquares(s[..j]) - SumSquares(s[..i]) == SumSquares(s[i..j])
  {
    assert s[..j] == s[..i] + s[i..j];
    SumSquaresAppend(s[..i], s[i..j]);
  }

  lemma {:induction false} SumSquaresOfZeros(s: seq<real>)
    requires forall j :: 0 <= j < |s| ==> s[j] == 0.0
    ensures SumSquares(s) == 0.0
    decreases |s|
  {
    if s != [] { SumSquaresOfZeros(s[..|s| - 1]); }
  }

  /** A long window of silence gives an infinite ratio, so the picker fires there whatever
    * the threshold. */
  lemma SilentLongWindowTriggers(s: seq<real>, w: Windows, thrOn: real, i: int)
    requires 1 <= w.staN < w.ltaN <= i < |s|
    requires forall j :: i - w.ltaN <= j < i ==> s[j] == 0.0
    ensures Triggers(s, w, thrOn, i)
  {
    WindowEnergy(s, i - w.ltaN, i);
    SumSquaresOfZeros(s[i - w.ltaN..i]);
  }

  // ---------------------------------------------------------------- cross-correlation

  datatype CorrelationError = NegativeArraySize

  /** The real parts of the first n + m - 1 entries of IFFT(FFT(a) * conj(FFT(b))), both
    * inputs zero-padded to the smallest power of two not below n + m - 1. */
  function CrossCorrelationSpec(trig: Trig, a: seq<real>, b: seq<real>): (r: seq<real>)
    requires |a| + |b| >= 1
    ensures |r| == |a| + |b| - 1
  {
    var n := NextPow2Of(|a| + |b| - 1);
    var c := CrossSpectrum(FftSpec(trig, Padded(a, n)), FftSpec(trig, Padded(b, n)));
    RealParts(IfftSpec(trig, c), |a| + |b| - 1)
  }

  /** Entrywise A[i] * conj(B[i]). */
  function CrossSpectrum(fa: seq<ComplexNumber>, fb: seq<ComplexNumber>): (r: seq<ComplexNumber>)
    requires |fa| == |fb|
    ensures |r| == |fa| && forall i :: 0 <= i < |fa| ==> r[i] == fa[i].Mul(fb[i].Conj())
  {
    seq(|fa|, i requires 0 <= i < |fa| => fa[i].Mul(fb[i].Conj()))
  }

  /** The real parts of the first `n` entries. */
  function RealParts(s: seq<ComplexNumber>, n: nat): (r: seq<real>)
    requires n <= |s|
    ensures |r| == n && forall i :: 0 <= i < n ==> r[i] == s[i].re
  {
    seq(n, i requires 0 <= i < n => s[i].re)
  }

  /** `crossCorrelation`. With both inputs empty the result length is -1 and the source's
    * array allocation fails. */
  method CrossCorrelation(trig: Trig, a: array<real>, b: array<real>)
    returns (res: Result<array<real>, CorrelationError>)
    requires a.Length + b.Length - 1 <= MaxPow2Arg
    ensures res.Ok? <==> a.Length + b.Length >= 1
    ensures res.Ok? ==> res.value[..] == CrossCorrelationSpec(trig, a[..], b[..])
  {
    var n, m := a.Length, b.Length;
    var convLen := n + m - 1;
    var size := NextPow2(convLen);
    var c := PaddedCrossSpectrum(trig, a, b, size);
    if convLen < 0 {
      return Err(NegativeArraySize);
    }
    var corr := InverseRealParts(trig, c, convLen);
    CorrelationOfSpectrum(trig, a[..], b[..], size, c[..]);
    return Ok(corr);
  }

  /** `CrossCorrelationSpec` read off the spectrum product at the padded size. */
  lemma CorrelationOfSpectrum(trig: Trig, a: seq<real>, b: seq<real>, size: int, c: seq<ComplexNumber>)
    requires |a| + |b| >= 1 && size == NextPow2Of(|a| + |b| - 1)
    requires c == CrossSpectrum(FftSpec(trig, Padded(a, size)), FftSpec(trig, Padded(b, size)))
    ensures CrossCorrelationSpec(trig, a, b) == RealParts(IfftSpec(trig, c), |a| + |b| - 1)
  {
  }

  /** The second half of `crossCorrelation`: the inverse transform of the spectrum product,
    * of which the first `convLen` real parts are kept. */
  method InverseRealParts(trig: Trig, c: array<ComplexNumber>, convLen: int) returns (corr: array<real>)
    requires IsPow2(c.Length) && 0 <= convLen <= c.Length
    ensures corr[..] == RealParts(IfftSpec(trig, c[..]), convLen)
  {
    var corrRes := Ifft(trig, c);
    corr := TakeRealParts(corrRes.value, convLen);
  }

  /** The first half of `crossCorrelation`: both inputs padded to `size`, transformed, and
    * multiplied entrywise with the conjugate of the second. */
  method PaddedCrossSpectrum(trig: Trig, a: array<real>, b: array<real>, size: int) returns (c: array<ComplexNumber>)
    requires IsPow2(size)
    ensures c[..] == CrossSpectrum(FftSpec(trig, Padded(a[..], size)), FftSpec(trig, Padded(b[..], size)))
  {
    var pa := ToComplexPadded(a, size);
    var faRes := Fft(trig, pa);
    var pb := ToComplexPadded(b, size);
    var fbRes := Fft(trig, pb);
    c := MultiplySpectra(faRes.value, fbRes.value);
  }

  /** The product loop of `crossCorrelation`: C[i] = A[i] * conj(B[i]). */
  method MultiplySpectra(fa: array<ComplexNumber>, fb: array<ComplexNumber>) returns (c: array<ComplexNumber>)
    requires fa.Length == fb.Length
    ensures c[..] == CrossSpectrum(fa[..], fb[..])
  {
    c := new ComplexNumber[fa.Length];
    for i := 0 to fa.Length
      invariant forall j :: 0 <= j < i ==> c[j] == fa[j].Mul(fb[j].Conj())
    {
      c[i] := fa[i].Mul(fb[i].Conj());
    }
  }

  /** The output loop of `crossCorrelation`: the real parts of the first `n` entries. */
  method TakeRealParts(corrC: array<ComplexNumber>, n: nat) returns (corr: array<real>)
    requires n <= corrC.Length
    ensures corr[..] == RealParts(corrC[..], n)
  {
    corr := new real[n];
    for i := 0 to n
      invariant forall j :: 0 <= j < i ==> corr[j] == corrC[j].re
    {
      corr[i] := corrC[i].re;
    }
  }

  // ---------------------------------------------------------------- delay estimate

  /** `parabolicRefine`: the offset of the vertex of the parabola through the three points,
    * or 0 when their second difference is below 1e-12 in magnitude. */
  function ParabolicRefine(ym1: real, y0: real, yp1: real): real
  {
    var denominator := ym1 - 2.0 * y0 + yp1;
    if Abs(denominator) < 0.000000000001 then 0.0 else 0.5 * (ym1 - yp1) / denominator
  }

  /** On samples of y(t) = a t^2 + b t + c at t = -1, 0, 1 the refinement is the vertex
    * -b / 2a of that parabola (or 0 when 2|a| is below the cut-off). */
  lemma ParabolicRefineVertex(a: real, b: real, c: real)
    ensures Abs(2.0 * a) < 0.000000000001 ==> ParabolicRefine(a - b + c, c, a + b + c) == 0.0
    ensures Abs(2.0 * a) >= 0.000000000001 ==> ParabolicRefine(a - b + c, c, a + b + c) == -b / (2.0 * a)
  {
    var den := (a - b + c) - 2.0 * c + (a + b + c);
    assert den == 2.0 * a;
    assert 0.5 * ((a - b + c) - (a + b + c)) == -b;
  }

  /** Equal neighbours put the vertex on the middle sample. */
  lemma ParabolicRefineSymmetric(ym1: real, y0: real)
    ensures ParabolicRefine(ym1, y0, ym1) == 0.0
  {
  }

  /** Index of the first largest value. */
  function FirstMaxIndex(s: seq<real>): (k: nat)
    requires s != []
    ensures k < |s|
    ensures forall j :: 0 <= j < |s| ==> s[j] <= s[k]
    ensures forall j :: 0 <= j < k ==> s[j] < s[k]
  {
    if |s| == 1 then 0
    else
      var k := FirstMaxIndex(s[..|s| - 1]);
      if s[|s| - 1] > s[k] then |s| - 1 else k
  }

  /** The peak position in samples: the first largest entry (index 0 when there is none),
    * refined by a parabola only when the peak has a neighbour on each side. */
  function RefinedPeak(corr: seq<real>): real
  {
    var k := if corr == [] then 0 else FirstMaxIndex(corr);
    var sub := if 0 < k < |corr| - 1 then ParabolicRefine(corr[k - 1], corr[k], corr[k + 1]) else 0.0;
    k as real + sub
  }

  /** The delay of `a` relative to `b` in seconds: the refined peak of the correlation of the
    * demeaned inputs, taken relative to the zero-lag index |b| - 1 and divided by the
    * sampling rate. */
  function DelaySpec(trig: Trig, a: seq<real>, b: seq<real>, fs: real): real
    requires fs != 0.0 && |a| + |b| >= 1
  {
    var corr := CrossCorrelationSpec(trig, Demeaned(a), Demeaned(b));
    (RefinedPeak(corr) - (|b| - 1) as real) / fs
  }

  /** The peak search of `estimateDelaySeconds`: starting from a maximum of -infinity, an
    * entry replaces the current maximum only when strictly larger, so the first peak wins;
    * an empty correlation leaves index 0. */
  method FirstArgMax(corr: array<real>) returns (kMax: int)
    ensures kMax == if corr.Length == 0 then 0 else FirstMaxIndex(corr[..])
  {
    kMax := 0;
    // `hasMax == false` stands for the initial maximum of -infinity.
    var valMax := 0.0;
    var hasMax := false;
    for k := 0 to corr.Length
      invariant hasMax <==> k > 0
      invariant !hasMax ==> kMax == 0
      invariant hasMax ==> kMax == FirstMaxIndex(corr[..k]) && valMax == corr[kMax]
    {
      assert corr[..k + 1][..k] == corr[..k];
      if !hasMax || corr[k] > valMax {
        valMax := corr[k];
        kMax := k;
        hasMax := true;
      }
    }
    assert corr[..corr.Length] == corr[..];
  }

  /** `estimateDelaySeconds`. */
  method EstimateDelaySeconds(trig: Trig, a: array<real>, b: array<real>, fs: real)
    returns (res: Result<real, CorrelationError>)
    requires fs != 0.0 && a.Length + b.Length - 1 <= MaxPow2Arg
    ensures res.Ok? <==> a.Length + b.Length >= 1
    ensures res.Ok? ==> res.value == DelaySpec(trig, a[..], b[..], fs)
  {
    var demeanedA := Demean(a);
    var demeanedB := Demean(b);
    var corrRes := CrossCorrelation(trig, demeanedA, demeanedB);
    if corrRes.Err? {
      return Err(corrRes.error);
    }
    var corr := corrRes.value;
    var peak := RefinedPeakIndex(corr);
    DelayFromPeak(trig, a[..], b[..], fs, corr[..]);
    var lagSamples := peak - (b.Length - 1) as real;
    return Ok(lagSamples / fs);
  }

  lemma DelayFromPeak(trig: Trig, a: seq<real>, b: seq<real>, fs: real, corr: seq<real>)
    requires fs != 0.0 && |a| + |b| >= 1
    requires corr == CrossCorrelationSpec(trig, Demeaned(a), Demeaned(b))
    ensures DelaySpec(trig, a, b, fs) == (RefinedPeak(corr) - (|b| - 1) as real) / fs
  {
  }

  /** The peak location of `estimateDelaySeconds` in samples: the first maximum, moved by the
    * parabolic refinement when it has a neighbour on both sides. */
  method RefinedPeakIndex(corr: array<real>) returns (peak: real)
    ensures peak == RefinedPeak(corr[..])
  {
    var kMax := FirstArgMax(corr);
    var sub := 0.0;
    if kMax > 0 && kMax < corr.Length - 1 {
      sub := ParabolicRefine(corr[kMax - 1], corr[kMax], corr[kMax + 1]);
    }
    peak := kMax as real + sub;
  }

  // ---------------------------------------------------------------- slicing

  /** The window `[max(0, start), min(start + length, |x|))` of `x`, empty when that range
    * is. */
  function Window(x: seq<real>, startIndex: int, length: int): seq<real>
  {
    var lo := MaxInt(0, startIndex);
    var hi := MinInt(startIndex + length, |x|);
    if lo < hi then x[lo..hi] else []
  }

  /** Every sample of a window is the sample of `x` at the clamped offset, which is in range;
    * a window is never longer than requested, nor than `x`. */
  lemma WindowReadsInside(x: seq<real>, startIndex: int, length: int)
    ensures var w := Window(x, startIndex, length);
            |w| <= |x| && |w| <= MaxInt(0, length)
            && forall j :: 0 <= j < |w| ==>
                 0 <= MaxInt(0, startIndex) + j < |x| && w[j] == x[MaxInt(0, startIndex) + j]
  {
  }

  /** `slice`: a negative start shortens the window by the overshoot, and the window is cut at
    * the end of the array; an empty range gives an empty array. */
  method Slice(x: array<real>, startIndex: int, length: int) returns (out: array<real>)
    ensures out[..] == Window(x[..], startIndex, length)
  {
    var start, len := startIndex, length;
    if start < 0 {
      len := len + start;
      start := 0;
    }
    if start + len > x.Length {
      len := x.Length - start;
    }
    if len <= 0 {
      return new real[0];
    }
    out := new real[len];
    for i := 0 to len
      invariant forall j :: 0 <= j < i ==> out[j] == x[start + j]
    {
      out[i] := x[start + i];
    }
  }
}
