/** Sequences of sample blocks, as both merge loops of the source read them: the blocks'
  * amplitudes one block after another, and the total number of amplitudes. The block type is
  * a parameter, since the two extractors each have their own `SampledSignal` record. */
module BlockSamples {
  /** The amplitudes of the blocks, one block after another. */
  function Concat<T>(blocks: seq<T>, amplitudes: T -> seq<real>): seq<real>
  {
    if blocks == [] then [] else Concat(blocks[..|blocks| - 1], amplitudes) + amplitudes(blocks[|blocks| - 1])
  }

  function TotalLength<T>(blocks: seq<T>, amplitudes: T -> seq<real>): nat
  {
    if blocks == [] then 0 else TotalLength(blocks[..|blocks| - 1], amplitudes) + |amplitudes(blocks[|blocks| - 1])|
  }

  /** The concatenated amplitudes are as many as the blocks hold together. */
  lemma {:induction false} ConcatLength<T>(blocks: seq<T>, amplitudes: T -> seq<real>)
    ensures |Concat(blocks, amplitudes)| == TotalLength(blocks, amplitudes)
  {
    if blocks != [] {
      ConcatLength(blocks[..|blocks| - 1], amplitudes);
    }
  }

  /** Reordering the blocks does not change the total number of amplitudes. */
  lemma {:induction false} TotalLengthPermutation<T>(a: seq<T>, b: seq<T>, amplitudes: T -> seq<real>)
    requires multiset(a) == multiset(b)
    ensures TotalLength(a, amplitudes) == TotalLength(b, amplitudes)
    decreases |a|
  {
    if a != [] {
      var x := a[|a| - 1];
      assert x in multiset(b);
      var j :| 0 <= j < |b| && b[j] == x;
      var b' := b[..j] + b[j + 1..];
      assert b == b[..j] + [x] + b[j + 1..];
      assert a == a[..|a| - 1] + [x];
      assert multiset(a) == multiset(a[..|a| - 1]) + multiset{x};
      assert multiset(b) == multiset(b[..j]) + multiset{x} + multiset(b[j + 1..]);
      assert multiset(b') == multiset(b[..j]) + multiset(b[j + 1..]);
      assert multiset(a[..|a| - 1]) == multiset(a) - multiset{x};
      assert multiset(b') == multiset(b) - multiset{x};
      TotalLengthPermutation(a[..|a| - 1], b', amplitudes);
      TotalLengthRemove(b, j, amplitudes);
    }
  }

  lemma {:induction false} TotalLengthRemove<T>(b: seq<T>, j: int, amplitudes: T -> seq<real>)
    requires 0 <= j < |b|
    ensures TotalLength(b, amplitudes) == TotalLength(b[..j] + b[j + 1..], amplitudes) + |amplitudes(b[j])|
    decreases |b|
  {
    if j < |b| - 1 {
      var init := b[..|b| - 1];
      TotalLengthRemove(init, j, amplitudes);
      assert (b[..j] + b[j + 1..])[..|b| - 2] == init[..j] + init[j + 1..];
    } else {
      assert b[..j] + b[j + 1..] == b[..|b| - 1];
    }
  }
}
