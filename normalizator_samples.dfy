/** `NormalizatorSamples`: the normaliser that receives the converted blocks of a record and
  * turns them into one evenly sampled, centred, windowed signal scaled into [-1, 1]. Its
  * helpers (`InterpolationExtends` in the source) merge the blocks in time order, design and
  * apply a windowed-sinc FIR low-pass filter, resample by cubic Hermite interpolation and
  * build the Hamming window. */
module NormalizatorSamples {
  import opened Wrappers
  import opened RealMath
  import opened SignalMath
  import opened StableSort
  import opened BlockSamples
  import FourierSeriesComputer

  type SampledSignal = FourierSeriesComputer.SampledSignal

  /** The common sampling rate every record is brought to, in Hz. */
  const TargetFs: real := 100.0

  /** Number of coefficients of the low-pass kernel. */
  const Taps: int := 101

  // ---------------------------------------------------------------- merge

  /** Sort key of a block: its start time. */
  function StartKey(s: SampledSignal): real
  {
    s.startTime.Key() as real
  }

  function Amplitudes(s: SampledSignal): seq<real>
  {
    s.amplitudes
  }

  /** `merge`: the list sorted by start time (stably, in place in the source), then the
    * amplitudes copied block by block into one array of the total length. */
  method Merge(signals: seq<SampledSignal>) returns (sorted: seq<SampledSignal>, out: array<real>)
    ensures sorted == SortBy(signals, StartKey)
    ensures out[..] == Concat(sorted, Amplitudes)
  {
    sorted := SortBy(signals, StartKey);
    var total := 0;
    for k := 0 to |sorted|
      invariant total == TotalLength(sorted[..k], Amplitudes)
    {
      assert sorted[..k + 1][..k] == sorted[..k];
      total := total + |sorted[k].amplitudes|;
    }
    assert sorted[..|sorted|] == sorted;
    ConcatLength(sorted, Amplitudes);
    out := new real[total];
    var pos := 0;
    for k := 0 to |sorted|
      invariant pos == |Concat(sorted[..k], Amplitudes)| <= total
      invariant out[..pos] == Concat(sorted[..k], Amplitudes)
    {
      assert sorted[..k + 1][..k] == sorted[..k];
      ConcatPrefix(sorted, k);
      var block := FourierSeriesComputer.AsArray(sorted[k]);
      pos := CopyBlock(out, pos, block[..]);
      assert Concat(sorted[..k + 1], Amplitudes) == Concat(sorted[..k], Amplitudes) + sorted[k].amplitudes;
    }
    assert out[..pos] == out[..];
  }

  lemma ConcatPrefix(s: seq<SampledSignal>, k: int)
    requires 0 <= k < |s|
    ensures |Concat(s[..k + 1], Amplitudes)| == |Concat(s[..k], Amplitudes)| + |s[k].amplitudes| <= |Concat(s, Amplitudes)|
  {
    assert s[..k + 1][..k] == s[..k];
    ConcatPrefixMonotone(s, k + 1);
  }

  lemma {:induction false} ConcatPrefixMonotone(s: seq<SampledSignal>, k: int)
    requires 0 <= k <= |s|
    ensures |Concat(s[..k], Amplitudes)| <= |Concat(s, Amplitudes)|
    decreases |s| - k
  {
    if k < |s| {
      ConcatPrefixMonotone(s, k + 1);
      assert s[..k + 1][..k] == s[..k];
    } else {
      assert s[..k] == s;
    }
  }

  /** The inner copy loop of `merge`: `out[pos++] = d` for every sample of the block. */
  method CopyBlock(out: array<real>, pos: int, block: seq<real>) returns (newPos: int)
    requires 0 <= pos && pos + |block| <= out.Length
    modifies out
    ensures newPos == pos + |block|
    ensures out[..newPos] == old(out[..pos]) + block
  {
    newPos := pos;
    for k := 0 to |block|
      invariant newPos == pos + k
      invariant out[..newPos] == old(out[..pos]) + block[..k]
    {
      out[newPos] := block[k];
      assert block[..k + 1] == block[..k] + [block[k]];
      newPos := newPos + 1;
    }
    assert block[..|block|] == block;
  }

  /** What `merge` promises: the blocks end up in non-decreasing start-time order, blocks with
    * equal start times keep their read order, and no sample is lost or added. */
  lemma MergeProperties(signals: seq<SampledSignal>)
    ensures var sorted := SortBy(signals, StartKey);
            SortedBy(sorted, StartKey)
            && multiset(sorted) == multiset(signals)
            && (forall k :: WithKey(sorted, StartKey, k) == WithKey(signals, StartKey, k))
            && |Concat(sorted, Amplitudes)| == TotalLength(signals, Amplitudes)
  {
    var sorted := SortBy(signals, StartKey);
    SortBySorted(signals, StartKey);
    forall k ensures WithKey(sorted, StartKey, k) == WithKey(signals, StartKey, k) {
      SortByStable(signals, StartKey, k);
    }
    ConcatLength(sorted, Amplitudes);
    TotalLengthPermutation(sorted, signals, Amplitudes);
  }

  // ---------------------------------------------------------------- Hamming window

  /** The weights of a Hamming window of `n` samples (last index n - 1). */
  function WindowWeights(trig: Trig, n: nat): (w: seq<real>)
    requires n != 1
    ensures |w| == n
  {
    seq(n, i requires 0 <= i < n => HammingWeight(trig, i, n - 1))
  }

  /** `generateSignalHammingWindow`. A single sample (window width 0, a division by zero) is
    * excluded. */
  method GenerateSignalHammingWindow(trig: Trig, length: nat) returns (w: array<real>)
    requires length != 1
    ensures w[..] == WindowWeights(trig, length)
  {
    w := new real[length];
    var m := length - 1;
    for i := 0 to length
      invariant forall j :: 0 <= j < i ==> w[j] == HammingWeight(trig, j, m)
    {
      w[i] := 0.54 - 0.46 * trig.cos(2.0 * PI * i as real / m as real);
    }
  }

  /** `finalWindowing`: every sample times the window weight at its index, in place. */
  method FinalWindowing(smoothedSignal: array<real>, hammingWindow: array<real>)
    requires smoothedSignal.Length <= hammingWindow.Length
    modifies smoothedSignal
    ensures smoothedSignal[..] == Windowed(old(smoothedSignal[..]), old(hammingWindow[..]))
  {
    for i := 0 to smoothedSignal.Length
      invariant forall j :: 0 <= j < i ==> smoothedSignal[j] == Times(old(smoothedSignal[j]), old(hammingWindow[j]))
      invariant forall j :: i <= j < smoothedSignal.Length ==> smoothedSignal[j] == old(smoothedSignal[j])
      invariant forall j :: i <= j < hammingWindow.Length ==> hammingWindow[j] == old(hammingWindow[j])
    {
      smoothedSignal[i] := Times(smoothedSignal[i], hammingWindow[i]);
    }
  }

  /** Samples times weights, index by index. */
  function Windowed(s: seq<real>, w: seq<real>): (r: seq<real>)
    requires |s| <= |w|
    ensures |r| == |s|
  {
    seq(|s|, i requires 0 <= i < |s| => Times(s[i], w[i]))
  }

  /** Windowing with the generated window of the signal's own length is the Hamming
    * windowing of the signal. */
  lemma WindowedIsHamming(trig: Trig, s: seq<real>)
    requires |s| != 1
    ensures Windowed(s, WindowWeights(trig, |s|)) == HammingWindowed(trig, s)
  {
  }

  // ---------------------------------------------------------------- FIR low-pass

  /** Coefficient `i` of the windowed-sinc kernel with last index `m`: 2 cutoff at the centre
    * m / 2, sin(2 cutoff k) / k with k = pi (i - m / 2) elsewhere, times the Hamming weight. */
  function KernelCoefficient(trig: Trig, cutoff: real, i: int, m: int): real
    requires m != 0
  {
    Times(IdealCoefficient(trig, cutoff, i, m), HammingWeight(trig, i, m))
  }

  /** The ideal (unwindowed) low-pass impulse response at index `i`. */
  function IdealCoefficient(trig: Trig, cutoff: real, i: int, m: int): real
  {
    if i == m / 2 then 2.0 * cutoff
    else Sinc(trig, cutoff, PI * (i - m / 2) as real)
  }

  /** sin(2 cutoff k) / k. */
  function Sinc(trig: Trig, cutoff: real, k: real): real
    requires k != 0.0
  {
    trig.sin(2.0 * cutoff * k) / k
  }

  function FirKernel(trig: Trig, cutoff: real, taps: nat): (h: seq<real>)
    requires taps != 1
    ensures |h| == taps
  {
    seq(taps, i requires 0 <= i < taps => KernelCoefficient(trig, cutoff, i, taps - 1))
  }

  /** `designFirLowPass`. One tap (window width 0) is excluded. */
  method DesignFirLowPass(trig: Trig, cutoff: real, taps: nat) returns (ker: array<real>)
    requires taps != 1
    ensures ker[..] == FirKernel(trig, cutoff, taps)
  {
    ker := new real[taps];
    var m := taps - 1;
    for i := 0 to taps
      invariant forall j :: 0 <= j < i ==> ker[j] == KernelCoefficient(trig, cutoff, j, m)
    {
      var ideal;
      if i == m / 2 {
        ideal := 2.0 * cutoff;
      } else {
        var k := PI * (i - m / 2) as real;
        ideal := trig.sin(2.0 * cutoff * k) / k;
        assert ideal == Sinc(trig, cutoff, k);
      }
      ker[i] := Times(ideal, 0.54 - 0.46 * trig.cos(2.0 * PI * i as real / m as real));
    }
  }

  /** The kernel has one coefficient per tap and its centre coefficient is 2 cutoff before
    * windowing. */
  lemma KernelCentre(trig: Trig, cutoff: real, taps: nat)
    requires taps >= 2
    ensures var h := FirKernel(trig, cutoff, taps);
            |h| == taps && 0 <= (taps - 1) / 2 < taps
            && h[(taps - 1) / 2] == Times(2.0 * cutoff, HammingWeight(trig, (taps - 1) / 2, taps - 1))
  {
  }

  // ---------------------------------------------------------------- convolution

  /** The term x[i] h[k - i] of output `k`, zero when k - i is not a kernel index. */
  function ConvTerm(x: seq<real>, h: seq<real>, i: int, k: int): real
    requires 0 <= i < |x|
  {
    if 0 <= k - i < |h| then Times(x[i], h[k - i]) else 0.0
  }

  /** The sum of the terms of output `k` over the input indices below `i`. */
  function ConvPartial(x: seq<real>, h: seq<real>, i: int, k: int): real
    requires 0 <= i <= |x|
  {
    if i == 0 then 0.0 else ConvPartial(x, h, i - 1, k) + ConvTerm(x, h, i - 1, k)
  }

  /** The full discrete convolution: n + m - 1 outputs, y[k] the sum of x[i] h[j] over
    * i + j = k. */
  function Convolution(x: seq<real>, h: seq<real>): (y: seq<real>)
    requires |x| + |h| >= 1
    ensures |y| == |x| + |h| - 1
  {
    seq(|x| + |h| - 1, k requires 0 <= k < |x| + |h| - 1 => ConvPartial(x, h, |x|, k))
  }

  /** `convolve`. Two empty inputs (an array of length -1) are excluded. */
  method Convolve(x: array<real>, h: array<real>) returns (y: array<real>)
    requires x.Length + h.Length >= 1
    ensures y[..] == Convolution(x[..], h[..])
  {
    var n, m := x.Length, h.Length;
    y := new real[n + m - 1](_ => 0.0);
    for i := 0 to n
      invariant forall k :: 0 <= k < n + m - 1 ==> y[k] == ConvPartial(x[..], h[..], i, k)
    {
      AccumulateRow(x, h, y, i);
    }
  }

  /** The inner loop of `convolve`: row `i` of products added into `y`. */
  method AccumulateRow(x: array<real>, h: array<real>, y: array<real>, i: int)
    requires 0 <= i < x.Length && y.Length == x.Length + h.Length - 1
    requires y != x && y != h
    requires forall k :: 0 <= k < y.Length ==> y[k] == ConvPartial(x[..], h[..], i, k)
    modifies y
    ensures forall k :: 0 <= k < y.Length ==> y[k] == ConvPartial(x[..], h[..], i + 1, k)
  {
    var m := h.Length;
    for j := 0 to m
      invariant forall k :: 0 <= k < y.Length ==>
                  y[k] == ConvPartial(x[..], h[..], i, k) + (if i <= k < i + j then ConvTerm(x[..], h[..], i, k) else 0.0)
    {
      y[i + j] := y[i + j] + Times(x[i], h[j]);
    }
  }

  /** Convolving with the unit impulse [1] gives the input back. */
  lemma ConvolveImpulse(x: seq<real>)
    requires |x| >= 1
    ensures Convolution(x, [1.0]) == x
  {
    forall k | 0 <= k < |x| ensures Convolution(x, [1.0])[k] == x[k] {
      ImpulsePartial(x, |x|, k);
    }
  }

  lemma {:induction false} ImpulsePartial(x: seq<real>, i: int, k: int)
    requires 0 <= i <= |x| && 0 <= k
    ensures ConvPartial(x, [1.0], i, k) == if k < i then x[k] else 0.0
  {
    if i > 0 {
      ImpulsePartial(x, i - 1, k);
    }
  }

  /** `lowpass`: the kernel designed, then convolved with the signal. */
  method Lowpass(trig: Trig, x: array<real>, cutoff: real, taps: nat) returns (y: array<real>)
    requires taps >= 2
    ensures y[..] == Convolution(x[..], FirKernel(trig, cutoff, taps))
  {
    var h := DesignFirLowPass(trig, cutoff, taps);
    y := Convolve(x, h);
  }

  // ---------------------------------------------------------------- resampling

  /** `cubicHermite`: the Catmull-Rom cubic through y1 (t = 0) and y2 (t = 1) with slopes taken
    * from the outer neighbours. */
  function CubicHermite(y0: real, y1: real, y2: real, y3: real, t: real): real
  {
    var a0 := -0.5 * y0 + 1.5 * y1 - 1.5 * y2 + 0.5 * y3;
    var a1 := y0 - 2.5 * y1 + 2.0 * y2 - 0.5 * y3;
    var a2 := -0.5 * y0 + 0.5 * y2;
    var a3 := y1;
    ((a0 * t + a1) * t + a2) * t + a3
  }

  /** The cubic passes through its two inner points. */
  lemma CubicHermiteEnds(y0: real, y1: real, y2: real, y3: real)
    ensures CubicHermite(y0, y1, y2, y3, 0.0) == y1
    ensures CubicHermite(y0, y1, y2, y3, 1.0) == y2
  {
  }

  /** Four equal points give a constant. */
  lemma CubicHermiteConstant(c: real, t: real)
    ensures CubicHermite(c, c, c, c, t) == c
  {
  }

  /** `interpolateCubic` at position `x`: the integer part picks y[i], the fraction is the
    * curve parameter; the neighbours y[i - 1], y[i + 1] and y[i + 2] fall back to y[i] where
    * they would leave the array. */
  function InterpolateCubic(y: seq<real>, x: real): real
    requires 0.0 <= x < |y| as real
  {
    var i := Truncate(x);
    var t := x - i as real;
    var y0 := if i > 0 then y[i - 1] else y[i];
    var y1 := y[i];
    var y2 := if i < |y| - 1 then y[i + 1] else y[i];
    var y3 := if i < |y| - 2 then y[i + 2] else y[i];
    CubicHermite(y0, y1, y2, y3, t)
  }

  /** At a whole position the interpolation returns the sample itself. */
  lemma InterpolateAtSample(y: seq<real>, k: int)
    requires 0 <= k < |y|
    ensures InterpolateCubic(y, k as real) == y[k]
  {
    assert Truncate(k as real) == k;
  }

  /** ⌊len · newFs / oldFs⌋, the length after resampling. */
  function ResampleLength(len: nat, oldFs: real, newFs: real): (n: nat)
    requires oldFs > 0.0 && newFs > 0.0
    ensures n as real <= len as real * (newFs / oldFs) < n as real + 1.0
  {
    var r := newFs / oldFs;
    assert r > 0.0;
    assert len as real * r >= 0.0;
    Truncate(len as real * r)
  }

  /** Every output position i · oldFs / newFs lies inside the input, so every read of
    * `interpolateCubic` is in range. */
  lemma ResamplePositionInRange(len: nat, oldFs: real, newFs: real, i: int)
    requires oldFs > 0.0 && newFs > 0.0
    requires 0 <= i < ResampleLength(len, oldFs, newFs)
    ensures 0.0 <= i as real * (oldFs / newFs) < len as real
  {
    var r := newFs / oldFs;
    assert i as real < len as real * r;
    assert (oldFs / newFs) * r == 1.0;
    assert i as real * (oldFs / newFs) < len as real * r * (oldFs / newFs);
  }

  /** Output `i` of `resample`: the input interpolated at position i · oldFs / newFs. */
  function ResampledAt(y: seq<real>, oldFs: real, newFs: real, i: int): real
    requires oldFs > 0.0 && newFs > 0.0
    requires 0 <= i < ResampleLength(|y|, oldFs, newFs)
  {
    ResamplePositionInRange(|y|, oldFs, newFs, i);
    InterpolateCubic(y, i as real * (oldFs / newFs))
  }

  lemma ResampledAtPosition(y: seq<real>, oldFs: real, newFs: real, i: int, pos: real)
    requires oldFs > 0.0 && newFs > 0.0
    requires 0 <= i < ResampleLength(|y|, oldFs, newFs)
    requires pos == i as real * (oldFs / newFs) && 0.0 <= pos < |y| as real
    ensures ResampledAt(y, oldFs, newFs, i) == InterpolateCubic(y, pos)
  {
  }

  /** `resample`: ⌊len · newFs / oldFs⌋ outputs at a step of oldFs / newFs input samples. */
  function Resampled(y: seq<real>, oldFs: real, newFs: real): (r: seq<real>)
    requires oldFs > 0.0 && newFs > 0.0
    ensures |r| == ResampleLength(|y|, oldFs, newFs)
  {
    var n := ResampleLength(|y|, oldFs, newFs);
    seq(n, i requires 0 <= i < n => ResampledAt(y, oldFs, newFs, i))
  }

  method Resample(filtered: array<real>, oldFs: real, newFs: real) returns (out: array<real>)
    requires oldFs > 0.0 && newFs > 0.0
    ensures fresh(out)
    ensures out[..] == Resampled(filtered[..], oldFs, newFs)
  {
    var ratio := oldFs / newFs;
    var newLen := Truncate(filtered.Length as real * (newFs / oldFs));
    ghost var y := filtered[..];
    assert newLen == ResampleLength(|y|, oldFs, newFs);
    out := new real[newLen];
    for i := 0 to newLen
      invariant forall j :: 0 <= j < i ==> out[j] == ResampledAt(y, oldFs, newFs, j)
    {
      out[i] := ResampleSample(filtered, ratio, oldFs, newFs, i);
    }
  }

  /** Output sample `i` of `resample`: the cubic interpolation at position i · ratio. */
  method ResampleSample(filtered: array<real>, ratio: real, oldFs: real, newFs: real, i: int) returns (v: real)
    requires oldFs > 0.0 && newFs > 0.0 && ratio == oldFs / newFs
    requires 0 <= i < ResampleLength(filtered.Length, oldFs, newFs)
    ensures v == ResampledAt(filtered[..], oldFs, newFs, i)
  {
    var pos := i as real * ratio;
    ResamplePositionInRange(filtered.Length, oldFs, newFs, i);
    v := InterpolateCubic(filtered[..], pos);
    ResampledAtPosition(filtered[..], oldFs, newFs, i, pos);
  }

  /** Resampling at the signal's own rate gives the signal back. */
  lemma ResampleSameRate(y: seq<real>, fs: real)
    requires fs > 0.0
    ensures Resampled(y, fs, fs) == y
  {
    assert fs / fs == 1.0;
    assert Truncate(|y| as real) == |y|;
    forall i | 0 <= i < |y| ensures Resampled(y, fs, fs)[i] == y[i] {
      InterpolateAtSample(y, i);
    }
  }

  // ---------------------------------------------------------------- amplitude normalisation

  /** The largest absolute sample, starting from 0. */
  function MaxAbs(s: seq<real>): (r: real)
    ensures r >= 0.0
  {
    if s == [] then 0.0 else var m := MaxAbs(s[..|s| - 1]); var a := Abs(s[|s| - 1]); if m >= a then m else a
  }

  /** Every sample is within the maximum, and a positive maximum is attained. */
  lemma {:induction false} MaxAbsIsMax(s: seq<real>)
    ensures forall i :: 0 <= i < |s| ==> Abs(s[i]) <= MaxAbs(s)
    ensures MaxAbs(s) > 0.0 ==> exists i :: 0 <= i < |s| && Abs(s[i]) == MaxAbs(s)
  {
    if s != [] {
      var init := s[..|s| - 1];
      MaxAbsIsMax(init);
      assert forall i :: 0 <= i < |init| ==> init[i] == s[i];
      if MaxAbs(init) > 0.0 && MaxAbs(s) == MaxAbs(init) {
        var i :| 0 <= i < |init| && Abs(init[i]) == MaxAbs(init);
        assert Abs(s[i]) == MaxAbs(s);
      }
    }
  }

  /** Division by the largest absolute sample when it is positive; an all-zero signal is left
    * as it is. */
  function PeakNormalized(s: seq<real>): (r: seq<real>)
    ensures |r| == |s|
  {
    var m := MaxAbs(s);
    if m > 0.0 then seq(|s|, i requires 0 <= i < |s| => s[i] / m) else s
  }

  /** After normalisation every sample lies in [-1, 1] and one of them is +1 or -1; a signal
    * whose maximum is zero is all zeros and comes back unchanged. */
  lemma PeakNormalizedRange(s: seq<real>)
    ensures var r := PeakNormalized(s);
            (MaxAbs(s) > 0.0 ==>
               (forall i :: 0 <= i < |r| ==> -1.0 <= r[i] <= 1.0)
               && exists i :: 0 <= i < |r| && (r[i] == 1.0 || r[i] == -1.0))
            && (MaxAbs(s) == 0.0 ==> r == s && forall i :: 0 <= i < |s| ==> s[i] == 0.0)
  {
    MaxAbsIsMax(s);
    if MaxAbs(s) > 0.0 {
      ScaledWithin(s);
    }
  }

  lemma ScaledWithin(s: seq<real>)
    requires MaxAbs(s) > 0.0
    requires forall i :: 0 <= i < |s| ==> Abs(s[i]) <= MaxAbs(s)
    requires exists i :: 0 <= i < |s| && Abs(s[i]) == MaxAbs(s)
    ensures var r := PeakNormalized(s);
            (forall i :: 0 <= i < |r| ==> -1.0 <= r[i] <= 1.0)
            && exists i :: 0 <= i < |r| && (r[i] == 1.0 || r[i] == -1.0)
  {
    var m := MaxAbs(s);
    var r := PeakNormalized(s);
    forall i | 0 <= i < |r| ensures -1.0 <= r[i] <= 1.0 {
      DivideWithin(s[i], m);
    }
    var i :| 0 <= i < |s| && Abs(s[i]) == m;
    DivideAtMax(s[i], m);
    assert r[i] == s[i] / m;
  }

  lemma DivideWithin(a: real, m: real)
    requires m > 0.0 && Abs(a) <= m
    ensures -1.0 <= a / m <= 1.0
  {
    var q := a / m;
    assert q * m == a;
    assert (1.0 - q) * m == m - a;
    assert (1.0 + q) * m == m + a;
  }

  lemma DivideAtMax(a: real, m: real)
    requires m > 0.0 && Abs(a) == m
    ensures a / m == 1.0 || a / m == -1.0
  {
    if a == m {
      assert a / m == 1.0;
    } else {
      assert a == -m;
      assert a / m == -1.0;
    }
  }

  /** The largest absolute sample, as the loop of `normalize` computes it. */
  method MaxAbsLoop(s: array<real>) returns (max: real)
    ensures max == MaxAbs(s[..])
  {
    max := 0.0;
    for i := 0 to s.Length
      invariant max == MaxAbs(s[..i])
    {
      assert s[..i + 1][..i] == s[..i];
      var a := Abs(s[i]);
      max := if max >= a then max else a;
    }
    assert s[..s.Length] == s[..];
  }

  /** Amplitude normalisation in place. */
  method NormalizePeak(smoothed: array<real>)
    modifies smoothed
    ensures smoothed[..] == PeakNormalized(old(smoothed[..]))
  {
    var max := MaxAbsLoop(smoothed);
    if max > 0.0 {
      for i := 0 to smoothed.Length
        invariant forall j :: 0 <= j < i ==> smoothed[j] == old(smoothed[j]) / max
        invariant forall j :: i <= j < smoothed.Length ==> smoothed[j] == old(smoothed[j])
      {
        smoothed[i] := smoothed[i] / max;
      }
    }
  }

  /** Baseline correction in place: the mean of the samples subtracted from each. */
  method RemoveBaseline(smoothed: array<real>)
    modifies smoothed
    ensures smoothed[..] == Demeaned(old(smoothed[..]))
  {
    ghost var s := smoothed[..];
    var mean := 0.0;
    for i := 0 to smoothed.Length
      invariant mean == Sum(s[..i])
    {
      assert s[..i + 1][..i] == s[..i];
      mean := mean + smoothed[i];
    }
    assert s[..smoothed.Length] == s;
    // The source divides by the length even when it is zero; the NaN is then never read.
    if smoothed.Length > 0 {
      mean := mean / smoothed.Length as real;
    }
    for i := 0 to smoothed.Length
      invariant forall j :: 0 <= j < i ==> smoothed[j] == s[j] - mean
      invariant forall j :: i <= j < smoothed.Length ==> smoothed[j] == s[j]
    {
      smoothed[i] := smoothed[i] - mean;
    }
    if smoothed.Length > 0 {
      assert mean == Mean(s);
      assert forall j :: 0 <= j < smoothed.Length ==> smoothed[..][j] == Demeaned(s)[j];
    }
  }

  // ---------------------------------------------------------------- the pipeline

  /** The result of `normalize`: the normalised samples, or the single NaN sample that a
    * one-sample record produces (its Hamming window divides by a width of zero). */
  datatype Normalized = Samples(values: seq<real>) | SingleNaN

  datatype NormalizeError = NotReady

  /** The low-pass cut-off, normalised to the source's Nyquist frequency. */
  function Cutoff(sourceFs: real): real
    requires sourceFs != 0.0
  {
    (TargetFs / 2.0) / (sourceFs / 2.0)
  }

  /** Every block has a positive sampling rate. */
  predicate PositiveRates(signals: seq<SampledSignal>)
  {
    forall k :: 0 <= k < |signals| ==> signals[k].samplingRate > 0.0
  }

  /** The merged samples low-pass filtered when the source rate is above the target rate. */
  function Filtered(trig: Trig, merged: seq<real>, sourceFs: real): seq<real>
    requires sourceFs > 0.0
  {
    if TargetFs < sourceFs then Convolution(merged, FirKernel(trig, Cutoff(sourceFs), Taps)) else merged
  }

  /** The steps of `normalize` after merging, given the merged samples and the rate of the
    * earliest block: low-pass above 100 Hz, resample to 100 Hz, remove the mean, apply the
    * Hamming window, scale into [-1, 1]. */
  function Pipeline(trig: Trig, merged: seq<real>, sourceFs: real): Normalized
    requires sourceFs > 0.0
  {
    var centred := Demeaned(Resampled(Filtered(trig, merged, sourceFs), sourceFs, TargetFs));
    if |centred| == 1 then SingleNaN
    else Samples(PeakNormalized(HammingWindowed(trig, centred)))
  }

  /** `normalize` on an accepted list. */
  function NormalizeSpec(trig: Trig, signals: seq<SampledSignal>): Normalized
    requires signals != [] && PositiveRates(signals)
  {
    var sorted := SortBy(signals, StartKey);
    assert sorted[0] in multiset(signals);
    Pipeline(trig, Concat(sorted, Amplitudes), sorted[0].samplingRate)
  }

  /** What `normalize` guarantees of its output: samples in [-1, 1], one of them at +1 or -1
    * unless all are zero, and the centred signal before windowing sums to zero. */
  lemma PipelineProperties(trig: Trig, merged: seq<real>, sourceFs: real)
    requires sourceFs > 0.0
    ensures var r := Pipeline(trig, merged, sourceFs);
            r.Samples? ==>
              (forall i :: 0 <= i < |r.values| ==> -1.0 <= r.values[i] <= 1.0)
              && ((exists i :: 0 <= i < |r.values| && (r.values[i] == 1.0 || r.values[i] == -1.0))
                  || forall i :: 0 <= i < |r.values| ==> r.values[i] == 0.0)
    ensures Sum(Demeaned(Resampled(Filtered(trig, merged, sourceFs), sourceFs, TargetFs))) == 0.0
  {
    var centred := Demeaned(Resampled(Filtered(trig, merged, sourceFs), sourceFs, TargetFs));
    DemeanedSumsToZero(Resampled(Filtered(trig, merged, sourceFs), sourceFs, TargetFs));
    if |centred| != 1 {
      var w := HammingWindowed(trig, centred);
      PeakNormalizedRange(w);
      if MaxAbs(w) == 0.0 {
        assert PeakNormalized(w) == w;
      }
    }
  }

  /** The normaliser: idle until it has accepted a non-empty list of blocks. */
  class NormalizatorSamples {
    var readyListForNormalization: seq<SampledSignal>
    var isReady: bool

    /** `isReady` is set exactly when a non-empty list has been accepted. */
    ghost predicate Valid()
      reads this
    {
      isReady <==> readyListForNormalization != []
    }

    constructor()
      ensures Valid() && !isReady && readyListForNormalization == []
    {
      readyListForNormalization := [];
      isReady := false;
    }

    /** `accepting`: a non-empty list is stored and makes the normaliser ready; an empty one
      * changes nothing. */
    method Accepting(signals: seq<SampledSignal>)
      requires Valid()
      modifies this
      ensures Valid()
      ensures signals != [] ==> readyListForNormalization == signals && isReady
      ensures signals == [] ==> readyListForNormalization == old(readyListForNormalization)
                                && isReady == old(isReady)
    {
      if signals != [] {
        readyListForNormalization := signals;
        isReady := true;
      }
    }

    /** `normalize`: not ready is an error; otherwise the accepted list is left sorted by
      * start time and the normalised signal returned. */
    method Normalize(trig: Trig) returns (res: Result<Normalized, NormalizeError>)
      requires Valid() && PositiveRates(readyListForNormalization)
      modifies this
      ensures Valid() && isReady == old(isReady)
      ensures !old(isReady) ==> res == Err(NotReady)
                                && readyListForNormalization == old(readyListForNormalization)
      ensures old(isReady) ==> res == Ok(NormalizeSpec(trig, old(readyListForNormalization)))
                               && readyListForNormalization == SortBy(old(readyListForNormalization), StartKey)
    {
      if !isReady {
        return Err(NotReady);
      }
      var sorted, merged := Merge(readyListForNormalization);
      readyListForNormalization := sorted;
      assert sorted[0] in multiset(old(readyListForNormalization));
      var sourceFs := readyListForNormalization[0].samplingRate;
      var smoothed := Smooth(trig, merged, sourceFs);
      if smoothed.Length == 1 {
        return Ok(SingleNaN);
      }
      var window := GenerateSignalHammingWindow(trig, smoothed.Length);
      ghost var centred := smoothed[..];
      FinalWindowing(smoothed, window);
      WindowedIsHamming(trig, centred);
      NormalizePeak(smoothed);
      return Ok(Samples(smoothed[..]));
    }
  }

  /** The filtering, resampling and baseline steps of `normalize`, on a fresh array. */
  method Smooth(trig: Trig, merged: array<real>, sourceFs: real) returns (smoothed: array<real>)
    requires sourceFs > 0.0
    ensures fresh(smoothed)
    ensures smoothed[..] == Demeaned(Resampled(Filtered(trig, merged[..], sourceFs), sourceFs, TargetFs))
  {
    var filtered := merged;
    if TargetFs < sourceFs {
      var cutoff := (TargetFs / 2.0) / (sourceFs / 2.0);
      filtered := Lowpass(trig, merged, cutoff, Taps);
    }
    smoothed := Resample(filtered, sourceFs, TargetFs);
    RemoveBaseline(smoothed);
  }
}
