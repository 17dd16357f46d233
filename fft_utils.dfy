/** `TriangulationPipeline.ComplexNumber`, `nextPow2` and `TriangulationPipeline.FFTUtils`:
  * the recursive radix-2 Cooley-Tukey transform over arrays, its conjugate-based inverse and
  * zero padding. Each method is proved against a function on sequences (`FftSpec`,
  * `IfftSpec`, `Padded`, `NextPow2Of`) that the rest of the model reasons with. */
module FftUtils {
  import opened Wrappers
  import opened RealMath

  /** The largest argument for which Java's `nextPow2` terminates: above it `n <<= 1`
    * overflows and the loop never ends. */
  const MaxPow2Arg: int := 0x4000_0000

  datatype ComplexNumber = ComplexNumber(re: real, im: real)
  {
    function Add(o: ComplexNumber): ComplexNumber { ComplexNumber(re + o.re, im + o.im) }
    function Sub(o: ComplexNumber): ComplexNumber { ComplexNumber(re - o.re, im - o.im) }
    function Mul(o: ComplexNumber): ComplexNumber
    {
      ComplexNumber(re * o.re - im * o.im, re * o.im + im * o.re)
    }
    function Conj(): ComplexNumber { ComplexNumber(re, -im) }
    function Scale(s: real): ComplexNumber { ComplexNumber(re * s, im * s) }
  }

  const Zero: ComplexNumber := ComplexNumber(0.0, 0.0)

  datatype FftError = NotPowerOfTwo

  /** Conjugation is an involution and distributes over the product. */
  lemma ConjProperties(a: ComplexNumber, b: ComplexNumber)
    ensures a.Conj().Conj() == a
    ensures a.Mul(b).Conj() == a.Conj().Mul(b.Conj())
    ensures a.Add(b).Conj() == a.Conj().Add(b.Conj())
  {
  }

  /** The product distributes over the sum, the identity behind the linearity of the FFT. */
  lemma MulDistributes(w: ComplexNumber, a: ComplexNumber, b: ComplexNumber)
    ensures w.Mul(a.Add(b)) == w.Mul(a).Add(w.Mul(b))
  {
    assert w.re * (a.re + b.re) == w.re * a.re + w.re * b.re;
    assert w.im * (a.im + b.im) == w.im * a.im + w.im * b.im;
    assert w.re * (a.im + b.im) == w.re * a.im + w.re * b.im;
    assert w.im * (a.re + b.re) == w.im * a.re + w.im * b.re;
  }

  // ---------------------------------------------------------------- nextPow2

  function Pow2From(n: int, v: int): (r: int)
    requires IsPow2(n) && (n == 1 || n / 2 < v)
    ensures IsPow2(r) && r >= v && r >= n && (r == 1 || r / 2 < v)
    decreases v - n
  {
    if n >= v then n else Pow2Double(n); Pow2From(2 * n, v)
  }

  /** The smallest power of two that is at least `v` (1 for every `v <= 1`). */
  function NextPow2Of(v: int): (r: int)
    ensures IsPow2(r) && r >= v && r >= 1
    ensures r == 1 || r / 2 < v
  {
    Pow2From(1, v)
  }

  /** `nextPow2`: doubles from 1 until the value is reached. */
  method NextPow2(v: int) returns (n: int)
    requires v <= MaxPow2Arg
    ensures n == NextPow2Of(v)
    ensures IsPow2(n) && n >= v && (n == 1 || n / 2 < v)
  {
    n := 1;
    while n < v
      invariant IsPow2(n) && (n == 1 || n / 2 < v)
      invariant Pow2From(n, v) == Pow2From(1, v)
      decreases v - n
    {
      Pow2Double(n);
      n := n * 2;
    }
  }

  lemma Pow2Double(n: int)
    requires IsPow2(n)
    ensures IsPow2(2 * n) && (2 * n) / 2 == n && 2 * n > 1
  {
  }

  // ---------------------------------------------------------------- transform

  function Evens(s: seq<ComplexNumber>): (r: seq<ComplexNumber>)
    ensures |r| == |s| / 2
    ensures forall i :: 0 <= i < |r| ==> r[i] == s[2 * i]
  {
    seq(|s| / 2, i requires 0 <= i < |s| / 2 => s[2 * i])
  }

  function Odds(s: seq<ComplexNumber>): (r: seq<ComplexNumber>)
    ensures |r| == |s| / 2
    ensures forall i :: 0 <= i < |r| ==> r[i] == s[2 * i + 1]
  {
    seq(|s| / 2, i requires 0 <= i < |s| / 2 => s[2 * i + 1])
  }

  /** The twiddle factor (cos, sin) of angle -2 pi k / n. */
  function Twiddle(trig: Trig, k: int, n: int): ComplexNumber
    requires n != 0
  {
    var ang := -2.0 * PI * k as real / n as real;
    ComplexNumber(trig.cos(ang), trig.sin(ang))
  }

  /** Combining the transforms of the two halves: entry `k` of the first half is
    * `fe[k] + w_k fo[k]` and entry `k` of the second half is `fe[k] - w_k fo[k]`. */
  function Butterfly(trig: Trig, fe: seq<ComplexNumber>, fo: seq<ComplexNumber>): (r: seq<ComplexNumber>)
    requires |fe| == |fo|
    ensures |r| == 2 * |fe|
  {
    var h := |fe|;
    seq(2 * h, k requires 0 <= k < 2 * h =>
      if k < h then fe[k].Add(Twiddle(trig, k, 2 * h).Mul(fo[k]))
      else fe[k - h].Sub(Twiddle(trig, k - h, 2 * h).Mul(fo[k - h])))
  }

  lemma Pow2Half(n: int)
    requires IsPow2(n) && n > 1
    ensures n % 2 == 0 && IsPow2(n / 2)
  {
  }

  /** The radix-2 decimation-in-time transform of a power-of-two-length sequence. */
  function FftSpec(trig: Trig, s: seq<ComplexNumber>): (r: seq<ComplexNumber>)
    requires IsPow2(|s|)
    ensures |r| == |s|
    decreases |s|
  {
    if |s| == 1 then [s[0]]
    else
      Pow2Half(|s|);
      Butterfly(trig, FftSpec(trig, Evens(s)), FftSpec(trig, Odds(s)))
  }

  /** `fft`: a length-1 input is returned as it is; any other length that is not a power of
    * two is refused; otherwise the halves are transformed recursively and recombined. The
    * empty array is excluded: on it the source recurses without end. */
  method Fft(trig: Trig, x: array<ComplexNumber>) returns (res: Result<array<ComplexNumber>, FftError>)
    requires x.Length >= 1
    ensures res.Ok? <==> IsPow2(x.Length)
    ensures res.Ok? ==> res.value[..] == FftSpec(trig, x[..])
    decreases x.Length
  {
    var n := x.Length;
    if n == 1 {
      var single := new ComplexNumber[1];
      single[0] := x[0];
      return Ok(single);
    }
    if !IsPow2(n) {
      return Err(NotPowerOfTwo);
    }
    Pow2Half(n);
    var half := n / 2;
    var even := new ComplexNumber[half];
    var odd := new ComplexNumber[half];
    for i := 0 to half
      invariant forall j :: 0 <= j < i ==> even[j] == x[2 * j] && odd[j] == x[2 * j + 1]
    {
      even[i] := x[2 * i];
      odd[i] := x[2 * i + 1];
    }
    assert even[..] == Evens(x[..]);
    assert odd[..] == Odds(x[..]);
    var feRes := Fft(trig, even);
    var foRes := Fft(trig, odd);
    var out := Combine(trig, feRes.value, foRes.value);
    return Ok(out);
  }

  /** The loop of `fft` that recombines the transformed halves into a fresh array. */
  method Combine(trig: Trig, fe: array<ComplexNumber>, fo: array<ComplexNumber>) returns (out: array<ComplexNumber>)
    requires fe.Length == fo.Length
    ensures out[..] == Butterfly(trig, fe[..], fo[..])
  {
    var half := fe.Length;
    var n := 2 * half;
    ghost var spec := Butterfly(trig, fe[..], fo[..]);
    out := new ComplexNumber[n];
    for k := 0 to half
      invariant forall j :: 0 <= j < k ==> out[j] == spec[j]
      invariant forall j :: half <= j < half + k ==> out[j] == spec[j]
    {
      var wk := Twiddle(trig, k, n);
      var t := wk.Mul(fo[k]);
      out[k] := fe[k].Add(t);
      out[k + half] := fe[k].Sub(t);
      assert out[k + half] == spec[k + half];
    }
  }

  function ConjAll(s: seq<ComplexNumber>): (r: seq<ComplexNumber>)
    ensures |r| == |s| && forall i :: 0 <= i < |s| ==> r[i] == s[i].Conj()
  {
    seq(|s|, i requires 0 <= i < |s| => s[i].Conj())
  }

  /** The inverse transform as the source computes it: conjugate, transform, conjugate and
    * scale by 1/N. */
  function IfftSpec(trig: Trig, s: seq<ComplexNumber>): (r: seq<ComplexNumber>)
    requires IsPow2(|s|)
    ensures |r| == |s|
  {
    var fy := FftSpec(trig, ConjAll(s));
    seq(|s|, i requires 0 <= i < |s| => fy[i].Conj().Scale(1.0 / |s| as real))
  }

  /** `ifft`: refused exactly when `fft` refuses the conjugated input. */
  method Ifft(trig: Trig, x: array<ComplexNumber>) returns (res: Result<array<ComplexNumber>, FftError>)
    requires x.Length >= 1
    ensures res.Ok? <==> IsPow2(x.Length)
    ensures res.Ok? ==> res.value[..] == IfftSpec(trig, x[..])
  {
    var conjX := Conjugated(x);
    var fyRes := Fft(trig, conjX);
    if fyRes.Err? {
      return Err(fyRes.error);
    }
    var out := ConjugateScaled(fyRes.value, x.Length);
    assert out[..] == IfftSpec(trig, x[..]);
    return Ok(out);
  }

  /** The first loop of `ifft`: a fresh array of the conjugates. */
  method Conjugated(x: array<ComplexNumber>) returns (conjX: array<ComplexNumber>)
    ensures fresh(conjX) && conjX[..] == ConjAll(x[..])
  {
    conjX := new ComplexNumber[x.Length];
    for i := 0 to x.Length
      invariant forall j :: 0 <= j < i ==> conjX[j] == x[j].Conj()
    {
      conjX[i] := x[i].Conj();
    }
  }

  /** The last loop of `ifft`: conjugate again and scale by 1/N. */
  method ConjugateScaled(fy: array<ComplexNumber>, n: int) returns (out: array<ComplexNumber>)
    requires fy.Length == n >= 1
    ensures out.Length == n
    ensures forall j :: 0 <= j < n ==> out[j] == fy[j].Conj().Scale(1.0 / n as real)
  {
    out := new ComplexNumber[n];
    for i := 0 to n
      invariant forall j :: 0 <= j < i ==> out[j] == fy[j].Conj().Scale(1.0 / n as real)
    {
      out[i] := fy[i].Conj().Scale(1.0 / n as real);
    }
  }

  /** `toComplexPadded`: the first `n` samples as complex numbers with zero imaginary part,
    * followed by (0, 0) up to length `n`. */
  function Padded(x: seq<real>, n: nat): (r: seq<ComplexNumber>)
    ensures |r| == n
  {
    seq(n, i requires 0 <= i < n => ComplexNumber(if i < |x| then x[i] else 0.0, 0.0))
  }

  method ToComplexPadded(x: array<real>, n: nat) returns (out: array<ComplexNumber>)
    ensures out.Length == n
    ensures forall i :: 0 <= i < n && i < x.Length ==> out[i] == ComplexNumber(x[i], 0.0)
    ensures forall i :: x.Length <= i < n ==> out[i] == Zero
    ensures out[..] == Padded(x[..], n)
  {
    out := new ComplexNumber[n];
    for i := 0 to n
      invariant forall j :: 0 <= j < i ==> out[j] == ComplexNumber(if j < x.Length then x[j] else 0.0, 0.0)
    {
      out[i] := ComplexNumber(if i < x.Length then x[i] else 0.0, 0.0);
    }
  }

  // ---------------------------------------------------------------- properties

  /** A length-1 input is returned unchanged by both directions. */
  lemma SingletonTransforms(trig: Trig, c: ComplexNumber)
    ensures FftSpec(trig, [c]) == [c]
    ensures IfftSpec(trig, [c]) == [c]
  {
    assert IsPow2(|[c]|);
    assert ConjAll([c]) == [c.Conj()];
    assert FftSpec(trig, [c.Conj()]) == [c.Conj()];
    assert 1.0 / |[c]| as real == 1.0;
    assert c.Conj().Conj().Scale(1.0) == c;
  }

  /** The butterfly: the two outputs `N/2` apart sum to twice the even-half transform and
    * differ by twice the twiddled odd-half transform. */
  lemma FftButterfly(trig: Trig, s: seq<ComplexNumber>, k: nat)
    requires IsPow2(|s|) && |s| > 1 && k < |s| / 2
    ensures IsPow2(|s| / 2)
    ensures var x := FftSpec(trig, s);
            var fe := FftSpec(trig, Evens(s));
            var fo := FftSpec(trig, Odds(s));
            x[k].Add(x[k + |s| / 2]) == fe[k].Scale(2.0)
            && x[k].Sub(x[k + |s| / 2]) == Twiddle(trig, k, |s|).Mul(fo[k]).Scale(2.0)
  {
    Pow2Half(|s|);
    var fe, fo := FftSpec(trig, Evens(s)), FftSpec(trig, Odds(s));
    assert FftSpec(trig, s) == Butterfly(trig, fe, fo);
    ButterflyPair(trig, fe, fo, k);
  }

  /** Entries `k` and `k + h` of one butterfly share the even term and the twiddled odd term. */
  lemma ButterflyPair(trig: Trig, fe: seq<ComplexNumber>, fo: seq<ComplexNumber>, k: nat)
    requires |fe| == |fo| && k < |fe|
    ensures var x := Butterfly(trig, fe, fo);
            x[k].Add(x[k + |fe|]) == fe[k].Scale(2.0)
            && x[k].Sub(x[k + |fe|]) == Twiddle(trig, k, 2 * |fe|).Mul(fo[k]).Scale(2.0)
  {
    var x := Butterfly(trig, fe, fo);
    var t := Twiddle(trig, k, 2 * |fe|).Mul(fo[k]);
    assert x[k] == fe[k].Add(t);
    assert x[k + |fe|] == fe[k].Sub(t);
  }

  function AddAll(a: seq<ComplexNumber>, b: seq<ComplexNumber>): (r: seq<ComplexNumber>)
    requires |a| == |b|
    ensures |r| == |a| && forall i :: 0 <= i < |a| ==> r[i] == a[i].Add(b[i])
  {
    seq(|a|, i requires 0 <= i < |a| => a[i].Add(b[i]))
  }

  /** The transform is additive whatever the twiddle factors are: the transform of a sum is
    * the sum of the transforms. */
  lemma {:induction false} FftAdditive(trig: Trig, a: seq<ComplexNumber>, b: seq<ComplexNumber>)
    requires |a| == |b| && IsPow2(|a|)
    ensures FftSpec(trig, AddAll(a, b)) == AddAll(FftSpec(trig, a), FftSpec(trig, b))
    decreases |a|
  {
    if |a| > 1 {
      Pow2Half(|a|);
      assert Evens(AddAll(a, b)) == AddAll(Evens(a), Evens(b));
      assert Odds(AddAll(a, b)) == AddAll(Odds(a), Odds(b));
      FftAdditive(trig, Evens(a), Evens(b));
      FftAdditive(trig, Odds(a), Odds(b));
      var fea, feb := FftSpec(trig, Evens(a)), FftSpec(trig, Evens(b));
      var foa, fob := FftSpec(trig, Odds(a)), FftSpec(trig, Odds(b));
      assert FftSpec(trig, AddAll(a, b)) == Butterfly(trig, AddAll(fea, feb), AddAll(foa, fob));
      assert FftSpec(trig, a) == Butterfly(trig, fea, foa);
      assert FftSpec(trig, b) == Butterfly(trig, feb, fob);
      ButterflyAdditive(trig, fea, feb, foa, fob);
    }
  }

  /** One butterfly of sums is the sum of the two butterflies. */
  lemma ButterflyAdditive(trig: Trig, fea: seq<ComplexNumber>, feb: seq<ComplexNumber>,
                          foa: seq<ComplexNumber>, fob: seq<ComplexNumber>)
    requires |fea| == |feb| == |foa| == |fob|
    ensures Butterfly(trig, AddAll(fea, feb), AddAll(foa, fob))
         == AddAll(Butterfly(trig, fea, foa), Butterfly(trig, feb, fob))
  {
    var lhs := Butterfly(trig, AddAll(fea, feb), AddAll(foa, fob));
    var fa, fb := Butterfly(trig, fea, foa), Butterfly(trig, feb, fob);
    forall k | 0 <= k < |lhs| ensures lhs[k] == fa[k].Add(fb[k]) {
      ButterflyEntryAdditive(trig, fea, feb, foa, fob, k);
    }
  }

  lemma ButterflyEntryAdditive(trig: Trig, fea: seq<ComplexNumber>, feb: seq<ComplexNumber>,
                               foa: seq<ComplexNumber>, fob: seq<ComplexNumber>, k: nat)
    requires |fea| == |feb| == |foa| == |fob| && k < 2 * |fea|
    ensures Butterfly(trig, AddAll(fea, feb), AddAll(foa, fob))[k]
         == Butterfly(trig, fea, foa)[k].Add(Butterfly(trig, feb, fob)[k])
  {
    var h := |fea|;
    var j := if k < h then k else k - h;
    var w := Twiddle(trig, j, 2 * h);
    MulDistributes(w, foa[j], fob[j]);
    var fe, fo := AddAll(fea, feb), AddAll(foa, fob);
    assert fe[j] == fea[j].Add(feb[j]) && fo[j] == foa[j].Add(fob[j]);
    if k < h {
      assert Butterfly(trig, fe, fo)[k] == fe[j].Add(w.Mul(fo[j]));
      assert Butterfly(trig, fea, foa)[k] == fea[j].Add(w.Mul(foa[j]));
      assert Butterfly(trig, feb, fob)[k] == feb[j].Add(w.Mul(fob[j]));
    } else {
      assert Butterfly(trig, fe, fo)[k] == fe[j].Sub(w.Mul(fo[j]));
      assert Butterfly(trig, fea, foa)[k] == fea[j].Sub(w.Mul(foa[j]));
      assert Butterfly(trig, feb, fob)[k] == feb[j].Sub(w.Mul(fob[j]));
    }
  }
}
