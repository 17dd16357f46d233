/** `org.seismograph.utils.dataonly.ReducedComplex`: the immutable complex number record the
  * Fourier solver returns. Doubles are reals; `Double.compare(a, b) == 0` is real equality
  * (NaN and signed zero are not modelled). */
module Dataonly {
  import opened Wrappers
  import opened RealMath

  datatype ReducedComplex = ReducedComplex(reality: real, imaginary: real)
  {
    function Add(other: ReducedComplex): ReducedComplex
    {
      ReducedComplex(reality + other.reality, imaginary + other.imaginary)
    }

    function Sub(other: ReducedComplex): ReducedComplex
    {
      ReducedComplex(reality - other.reality, imaginary - other.imaginary)
    }

    function Mul(other: ReducedComplex): ReducedComplex
    {
      ReducedComplex(reality * other.reality - imaginary * other.imaginary,
                     reality * other.imaginary + imaginary * other.reality)
    }

    /** `equals(Object)`: `None` stands for `null` or an object of another class. */
    predicate Equals(o: Option<ReducedComplex>)
    {
      o.Some? && reality == o.value.reality && imaginary == o.value.imaginary
    }

    /** `hashCode()` = `Objects.hash(reality, imaginary)` = 31 (31 + h(re)) + h(im) in `int`
      * arithmetic, where `doubleHash` is `Double.hashCode`. */
    function HashCode(doubleHash: real -> int): int
    {
      Wrap32(31 * Wrap32(31 + doubleHash(reality)) + doubleHash(imaginary))
    }
  }

  const One: ReducedComplex := ReducedComplex(1.0, 0.0)

  /** Subtracting what was added gives the original number back. */
  lemma AddThenSub(a: ReducedComplex, b: ReducedComplex)
    ensures a.Add(b).Sub(b) == a
  {
  }

  lemma AddCommutes(a: ReducedComplex, b: ReducedComplex)
    ensures a.Add(b) == b.Add(a)
  {
  }

  /** The product is commutative and has (1, 0) as its identity. */
  lemma MulProperties(a: ReducedComplex, b: ReducedComplex)
    ensures a.Mul(b) == b.Mul(a)
    ensures a.Mul(One) == a && One.Mul(a) == a
  {
  }

  /** `equals` is equality of the records, never holds for `null`, and is reflexive and
    * symmetric. */
  lemma EqualsIsEquality(a: ReducedComplex, o: Option<ReducedComplex>)
    ensures a.Equals(o) <==> o == Some(a)
    ensures !a.Equals(None)
    ensures a.Equals(Some(a))
    ensures o.Some? ==> (a.Equals(o) <==> o.value.Equals(Some(a)))
  {
  }

  /** Equal numbers have equal hash codes, whatever `Double.hashCode` is. */
  lemma HashAgreesWithEquals(a: ReducedComplex, b: ReducedComplex, doubleHash: real -> int)
    requires a.Equals(Some(b))
    ensures a.HashCode(doubleHash) == b.HashCode(doubleHash)
  {
  }
}

/** `org.seismograph.utils.removal.ReducedComplex`: the deprecated copy of the record. It is
  * modelled as its own type and related to the `dataonly` record, whose laws it inherits. */
module Removal {
  import opened Wrappers
  import opened RealMath
  import Dataonly

  datatype ReducedComplex = ReducedComplex(reality: real, imaginary: real)
  {
    function Add(other: ReducedComplex): ReducedComplex
    {
      ReducedComplex(reality + other.reality, imaginary + other.imaginary)
    }

    function Sub(other: ReducedComplex): ReducedComplex
    {
      ReducedComplex(reality - other.reality, imaginary - other.imaginary)
    }

    function Mul(other: ReducedComplex): ReducedComplex
    {
      ReducedComplex(reality * other.reality - imaginary * other.imaginary,
                     reality * other.imaginary + imaginary * other.reality)
    }

    predicate Equals(o: Option<ReducedComplex>)
    {
      o.Some? && reality == o.value.reality && imaginary == o.value.imaginary
    }

    function HashCode(doubleHash: real -> int): int
    {
      Wrap32(31 * Wrap32(31 + doubleHash(reality)) + doubleHash(imaginary))
    }

    /** The same number as a `dataonly` record. */
    function AsDataonly(): Dataonly.ReducedComplex
    {
      Dataonly.ReducedComplex(reality, imaginary)
    }
  }

  function FromDataonly(c: Dataonly.ReducedComplex): ReducedComplex
  {
    ReducedComplex(c.reality, c.imaginary)
  }

  /** The two records are the same type under a renaming: the conversion is a bijection that
    * carries every operation, `equals` and `hashCode` of one onto the other's. */
  lemma SameAsDataonly(a: ReducedComplex, b: ReducedComplex, doubleHash: real -> int)
    ensures FromDataonly(a.AsDataonly()) == a
    ensures a.Add(b).AsDataonly() == a.AsDataonly().Add(b.AsDataonly())
    ensures a.Sub(b).AsDataonly() == a.AsDataonly().Sub(b.AsDataonly())
    ensures a.Mul(b).AsDataonly() == a.AsDataonly().Mul(b.AsDataonly())
    ensures a.Equals(Some(b)) <==> a.AsDataonly().Equals(Some(b.AsDataonly()))
    ensures a.HashCode(doubleHash) == a.AsDataonly().HashCode(doubleHash)
  {
  }

  lemma ConversionBack(c: Dataonly.ReducedComplex)
    ensures FromDataonly(c).AsDataonly() == c
  {
  }

  /** `a.add(b).sub(b)` is `a`, `add` and `mul` commute and (1, 0) is the unit, carried over
    * from the `dataonly` record through the conversion. */
  lemma ArithmeticLaws(a: ReducedComplex, b: ReducedComplex)
    ensures a.Add(b).Sub(b) == a
    ensures a.Add(b) == b.Add(a)
    ensures a.Mul(b) == b.Mul(a)
    ensures a.Mul(ReducedComplex(1.0, 0.0)) == a
  {
    var da, db := a.AsDataonly(), b.AsDataonly();
    SameAsDataonly(a, b, _ => 0);
    SameAsDataonly(a.Add(b), b, _ => 0);
    SameAsDataonly(b, a, _ => 0);
    SameAsDataonly(a, ReducedComplex(1.0, 0.0), _ => 0);
    Dataonly.AddThenSub(da, db);
    Dataonly.AddCommutes(da, db);
    Dataonly.MulProperties(da, db);
    ConversionBack(da.Add(db).Sub(db));
  }

  /** `equals` is record equality and agrees with `hashCode`. */
  lemma EqualsAndHash(a: ReducedComplex, b: ReducedComplex, doubleHash: real -> int)
    ensures a.Equals(Some(b)) <==> a == b
    ensures !a.Equals(None)
    ensures a.Equals(Some(b)) ==> a.HashCode(doubleHash) == b.HashCode(doubleHash)
  {
  }
}
