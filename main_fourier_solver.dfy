/** `MainFourierSolver`: the spectrum of a normalised signal. `analyze` zero-pads the signal
  * to a power-of-two length and runs the recursive radix-2 transform `fft`, which works on
  * real samples and returns `dataonly.ReducedComplex` values. The transform is related to
  * the complex transform `FftUtils.FftSpec` of the triangulation pipeline. */
module MainFourierSolver {
  import opened RealMath
  import opened Dataonly
  import FftUtils

  /** The samples at even and at odd indices. */
  function EvenHalf(x: seq<real>): (r: seq<real>)
    ensures |r| == |x| / 2
  {
    seq(|x| / 2, i requires 0 <= i < |x| / 2 => x[2 * i])
  }

  function OddHalf(x: seq<real>): (r: seq<real>)
    ensures |r| == |x| / 2
  {
    seq(|x| / 2, i requires 0 <= i < |x| / 2 => x[2 * i + 1])
  }

  /** The twiddle factor (cos, sin) of angle -2 pi n / N. */
  function Twiddle(trig: Trig, n: int, bigN: int): ReducedComplex
    requires bigN != 0
  {
    var angle := -2.0 * PI * n as real / bigN as real;
    ReducedComplex(trig.cos(angle), trig.sin(angle))
  }

  /** Entry `k` of the first half is `fe[k] + w_k fo[k]`, entry `k` of the second half is
    * `fe[k] - w_k fo[k]`. */
  function Combined(trig: Trig, fe: seq<ReducedComplex>, fo: seq<ReducedComplex>): (r: seq<ReducedComplex>)
    requires |fe| == |fo|
    ensures |r| == 2 * |fe|
  {
    var h := |fe|;
    seq(2 * h, k requires 0 <= k < 2 * h =>
      if k < h then fe[k].Add(Twiddle(trig, k, 2 * h).Mul(fo[k]))
      else fe[k - h].Sub(Twiddle(trig, k - h, 2 * h).Mul(fo[k - h])))
  }

  lemma Pow2Half(n: int)
    requires IsPow2(n) && n > 1
    ensures n % 2 == 0 && IsPow2(n / 2)
  {
  }

  /** The transform `fft` computes, for a power-of-two number of samples. */
  function Transform(trig: Trig, x: seq<real>): (r: seq<ReducedComplex>)
    requires IsPow2(|x|)
    ensures |r| == |x|
    decreases |x|
  {
    if |x| == 1 then [ReducedComplex(x[0], 0.0)]
    else
      Pow2Half(|x|);
      Combined(trig, Transform(trig, EvenHalf(x)), Transform(trig, OddHalf(x)))
  }

  /** `fft`. Only power-of-two lengths are passed by `analyze`; on other lengths the source
    * leaves `null` entries (odd lengths) or recurses without end (length 0). */
  method Fft(trig: Trig, x: array<real>) returns (bigX: array<ReducedComplex>)
    requires IsPow2(x.Length)
    ensures bigX[..] == Transform(trig, x[..])
    decreases x.Length
  {
    var bigN := x.Length;
    if bigN == 1 {
      bigX := new ReducedComplex[1];
      bigX[0] := ReducedComplex(x[0], 0.0);
      return;
    }
    Pow2Half(bigN);
    var even := new real[bigN / 2];
    var odd := new real[bigN / 2];
    for i := 0 to bigN / 2
      invariant forall j :: 0 <= j < i ==> even[j] == x[2 * j] && odd[j] == x[2 * j + 1]
    {
      even[i] := x[2 * i];
      odd[i] := x[2 * i + 1];
    }
    assert even[..] == EvenHalf(x[..]);
    assert odd[..] == OddHalf(x[..]);
    var fEven := Fft(trig, even);
    var fOdd := Fft(trig, odd);
    bigX := Butterflies(trig, fEven, fOdd);
  }

  /** The recombination loop of `fft`. */
  method Butterflies(trig: Trig, fEven: array<ReducedComplex>, fOdd: array<ReducedComplex>)
    returns (bigX: array<ReducedComplex>)
    requires fEven.Length == fOdd.Length
    ensures bigX[..] == Combined(trig, fEven[..], fOdd[..])
  {
    var half := fEven.Length;
    var bigN := 2 * half;
    ghost var spec := Combined(trig, fEven[..], fOdd[..]);
    bigX := new ReducedComplex[bigN];
    for n := 0 to half
      invariant forall j :: 0 <= j < n ==> bigX[j] == spec[j]
      invariant forall j :: half <= j < half + n ==> bigX[j] == spec[j]
    {
      var angle := -2.0 * PI * n as real / bigN as real;
      var twiddle := ReducedComplex(trig.cos(angle), trig.sin(angle));
      var t := twiddle.Mul(fOdd[n]);
      bigX[n] := fEven[n].Add(t);
      bigX[n + half] := fEven[n].Sub(t);
      assert bigX[n + half] == spec[n + half];
    }
  }

  /** The signal followed by zeros up to length `n`. */
  function ZeroPadded(signal: seq<real>, n: nat): (r: seq<real>)
    requires |signal| <= n
    ensures |r| == n
    ensures r[..|signal|] == signal
    ensures forall i :: |signal| <= i < n ==> r[i] == 0.0
  {
    signal + seq(n - |signal|, _ => 0.0)
  }

  /** `analyze`: the length doubled from 1 until it reaches the signal's length, the signal
    * copied into a zeroed array of that length, and the transform of the result. Above 2^30
    * samples the doubling overflows and never ends. */
  method Analyze(trig: Trig, signal: array<real>) returns (spectrum: array<ReducedComplex>)
    requires signal.Length <= FftUtils.MaxPow2Arg
    ensures spectrum[..] == Transform(trig, ZeroPadded(signal[..], FftUtils.NextPow2Of(signal.Length)))
  {
    var correctLength := 1;
    while correctLength < signal.Length
      invariant IsPow2(correctLength) && (correctLength == 1 || correctLength / 2 < signal.Length)
      invariant FftUtils.Pow2From(correctLength, signal.Length) == FftUtils.NextPow2Of(signal.Length)
      decreases signal.Length - correctLength
    {
      correctLength := correctLength * 2;
    }
    var padded := new real[correctLength](_ => 0.0);
    for i := 0 to signal.Length
      invariant padded[..i] == signal[..i]
      invariant forall j :: i <= j < correctLength ==> padded[j] == 0.0
    {
      padded[i] := signal[i];
      assert padded[..i + 1] == padded[..i] + [signal[i]];
    }
    assert padded[..] == ZeroPadded(signal[..], correctLength);
    spectrum := Fft(trig, padded);
  }

  /** The padded length is the smallest power of two that holds the signal (1 when it is
    * empty), so the transform always applies. */
  lemma PaddedLength(n: nat)
    ensures var m := FftUtils.NextPow2Of(n);
            IsPow2(m) && n <= m && (n <= 1 ==> m == 1) && (n > 1 ==> m / 2 < n)
  {
  }

  /** One sample transforms to itself with zero imaginary part. */
  lemma TransformOfOne(trig: Trig, v: real)
    ensures Transform(trig, [v]) == [ReducedComplex(v, 0.0)]
  {
  }

  /** The butterfly: outputs `N/2` apart sum to twice the transform of the even half. */
  lemma TransformButterfly(trig: Trig, x: seq<real>, n: nat)
    requires IsPow2(|x|) && |x| > 1 && n < |x| / 2
    ensures IsPow2(|x| / 2)
    ensures var bigX := Transform(trig, x);
            var fe := Transform(trig, EvenHalf(x));
            bigX[n].Add(bigX[n + |x| / 2]) == ReducedComplex(2.0 * fe[n].reality, 2.0 * fe[n].imaginary)
  {
    Pow2Half(|x|);
    var h := |x| / 2;
    var fe, fo := Transform(trig, EvenHalf(x)), Transform(trig, OddHalf(x));
    var bigX := Transform(trig, x);
    assert bigX == Combined(trig, fe, fo);
    var t := Twiddle(trig, n, 2 * h).Mul(fo[n]);
    assert bigX[n] == fe[n].Add(t);
    assert bigX[n + h] == fe[n].Sub(t);
    SumOfSumAndDifference(fe[n], t);
  }

  lemma SumOfSumAndDifference(a: ReducedComplex, t: ReducedComplex)
    ensures a.Add(t).Add(a.Sub(t)) == ReducedComplex(2.0 * a.reality, 2.0 * a.imaginary)
  {
  }

  // ---------------------------------------------------------------- agreement

  function ToComplex(c: ReducedComplex): FftUtils.ComplexNumber
  {
    FftUtils.ComplexNumber(c.reality, c.imaginary)
  }

  function ToComplexAll(s: seq<ReducedComplex>): (r: seq<FftUtils.ComplexNumber>)
    ensures |r| == |s|
  {
    seq(|s|, i requires 0 <= i < |s| => ToComplex(s[i]))
  }

  /** The conversion carries sum, difference and product over. */
  lemma ToComplexHomomorphic(a: ReducedComplex, b: ReducedComplex)
    ensures ToComplex(a.Add(b)) == ToComplex(a).Add(ToComplex(b))
    ensures ToComplex(a.Sub(b)) == ToComplex(a).Sub(ToComplex(b))
    ensures ToComplex(a.Mul(b)) == ToComplex(a).Mul(ToComplex(b))
  {
  }

  /** Real samples as complex numbers with zero imaginary part. */
  function Embed(x: seq<real>): (r: seq<FftUtils.ComplexNumber>)
    ensures |r| == |x|
  {
    seq(|x|, i requires 0 <= i < |x| => FftUtils.ComplexNumber(x[i], 0.0))
  }

  /** This transform of real samples is the pipeline's complex transform of the same samples
    * with zero imaginary parts: the two implementations compute the same spectrum. */
  lemma {:induction false} TransformAgrees(trig: Trig, x: seq<real>)
    requires IsPow2(|x|)
    ensures ToComplexAll(Transform(trig, x)) == FftUtils.FftSpec(trig, Embed(x))
    decreases |x|
  {
    if |x| > 1 {
      Pow2Half(|x|);
      var h := |x| / 2;
      assert FftUtils.Evens(Embed(x)) == Embed(EvenHalf(x));
      assert FftUtils.Odds(Embed(x)) == Embed(OddHalf(x));
      TransformAgrees(trig, EvenHalf(x));
      TransformAgrees(trig, OddHalf(x));
      var fe, fo := Transform(trig, EvenHalf(x)), Transform(trig, OddHalf(x));
      CombinedAgrees(trig, fe, fo);
    }
  }

  /** One recombination step agrees with the pipeline's butterfly. */
  lemma CombinedAgrees(trig: Trig, fe: seq<ReducedComplex>, fo: seq<ReducedComplex>)
    requires |fe| == |fo|
    ensures ToComplexAll(Combined(trig, fe, fo)) == FftUtils.Butterfly(trig, ToComplexAll(fe), ToComplexAll(fo))
  {
    var h := |fe|;
    var lhs := ToComplexAll(Combined(trig, fe, fo));
    var rhs := FftUtils.Butterfly(trig, ToComplexAll(fe), ToComplexAll(fo));
    forall k | 0 <= k < 2 * h ensures lhs[k] == rhs[k] {
      var j := if k < h then k else k - h;
      var w := Twiddle(trig, j, 2 * h);
      assert ToComplex(w) == FftUtils.Twiddle(trig, j, 2 * h);
      ToComplexHomomorphic(fe[j], w.Mul(fo[j]));
      ToComplexHomomorphic(w, fo[j]);
    }
  }
}
