/** Sums, means and windows over sample sequences, shared by the pipeline and the
  * normalizer, which compute them with the same formulas. */
module SignalMath {
  import opened RealMath

  /** Left-to-right sum, the order of the source's accumulation loops. */
  function Sum(s: seq<real>): real
  {
    if s == [] then 0.0 else Sum(s[..|s| - 1]) + s[|s| - 1]
  }

  function Mean(s: seq<real>): real
    requires s != []
  {
    Sum(s) / |s| as real
  }

  /** Each sample minus the mean of all samples. */
  function Demeaned(s: seq<real>): (r: seq<real>)
    ensures |r| == |s|
  {
    if s == [] then [] else seq(|s|, i requires 0 <= i < |s| => s[i] - Mean(s))
  }

  lemma {:induction false} SumShift(s: seq<real>, c: real, t: seq<real>)
    requires |t| == |s|
    requires forall i :: 0 <= i < |s| ==> t[i] == s[i] - c
    ensures Sum(t) == Sum(s) - |s| as real * c
    decreases |s|
  {
    if s != [] {
      SumShift(s[..|s| - 1], c, t[..|t| - 1]);
    }
  }

  /** Removing the mean leaves samples that sum to zero. */
  lemma DemeanedSumsToZero(s: seq<real>)
    ensures Sum(Demeaned(s)) == 0.0
  {
    if s != [] {
      SumShift(s, Mean(s), Demeaned(s));
    }
  }

  lemma {:induction false} SumAppend(a: seq<real>, b: seq<real>)
    ensures Sum(a + b) == Sum(a) + Sum(b)
    decreases |b|
  {
    if b == [] {
      assert a + b == a;
    } else {
      assert (a + b)[..|a + b| - 1] == a + b[..|b| - 1];
      SumAppend(a, b[..|b| - 1]);
    }
  }

  /** Weight `i` of a Hamming window whose last index is `m`:
    * 0.54 - 0.46 cos(2 pi i / m). */
  function HammingWeight(trig: Trig, i: int, m: int): real
    requires m != 0
  {
    0.54 - 0.46 * trig.cos(2.0 * PI * i as real / m as real)
  }

  /** With a cosine in [-1, 1] every weight lies in [0.08, 1]. */
  lemma HammingWeightBounds(trig: Trig, i: int, m: int)
    requires m != 0
    requires -1.0 <= trig.cos(2.0 * PI * i as real / m as real) <= 1.0
    ensures 0.08 <= HammingWeight(trig, i, m) <= 1.0
  {
  }

  /** The samples multiplied by a Hamming window that spans them. */
  function HammingWindowed(trig: Trig, s: seq<real>): (r: seq<real>)
    requires |s| != 1
    ensures |r| == |s|
  {
    seq(|s|, i requires 0 <= i < |s| => Times(s[i], HammingWeight(trig, i, |s| - 1)))
  }
}
