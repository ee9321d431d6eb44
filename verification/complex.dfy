/**
 * The complex number value type. The Java class is mutable (setReal and
 * setImaginary update it in place); here a setter returns the updated value.
 */
module Complex {

  import opened RealArith

  datatype ComplexNumber = ComplexNumber(re: real, im: real)

  /** Replaces the real part. */
  function SetReal(c: ComplexNumber, re: real): (r: ComplexNumber)
    ensures r.re == re
    ensures r.im == c.im
  {
    c.(re := re)
  }

  /** Replaces the imaginary part. */
  function SetImaginary(c: ComplexNumber, im: real): (r: ComplexNumber)
    ensures r.im == im
    ensures r.re == c.re
  {
    c.(im := im)
  }

  // Complex addition and multiplication. The Java class defines neither; they
  // serve as the reference against which the Julia iteration step is stated.

  function Plus(a: ComplexNumber, b: ComplexNumber): ComplexNumber
  {
    ComplexNumber(a.re + b.re, a.im + b.im)
  }

  function Minus(a: ComplexNumber, b: ComplexNumber): ComplexNumber
  {
    ComplexNumber(a.re - b.re, a.im - b.im)
  }

  function Times(a: ComplexNumber, b: ComplexNumber): ComplexNumber
  {
    ComplexNumber(a.re * b.re - a.im * b.im, a.re * b.im + a.im * b.re)
  }

  /** The squared magnitude, the quantity under the square root of getAbs. */
  function NormSq(c: ComplexNumber): real
  {
    c.im * c.im + c.re * c.re
  }

  /**
   * r is the value getAbs returns for c: the non-negative square root of the
   * squared magnitude. Square roots are not computable over `real`, so the
   * magnitude is characterised by this relation instead of a function.
   */
  ghost predicate IsAbs(c: ComplexNumber, r: real)
  {
    r >= 0.0 && r * r == NormSq(c)
  }

  /** At most one value satisfies IsAbs, so the relation determines getAbs. */
  lemma AbsUnique(c: ComplexNumber, r1: real, r2: real)
    requires IsAbs(c, r1) && IsAbs(c, r2)
    ensures r1 == r2
  {
    if r1 < r2 {
      SquareStrictlyIncreasing(r1, r2);
    } else if r2 < r1 {
      SquareStrictlyIncreasing(r2, r1);
    }
  }

  /** The squared magnitude is never negative. */
  lemma NormSqNonNegative(c: ComplexNumber)
    ensures NormSq(c) >= 0.0
  {
    SquareNonNegative(c.re);
    SquareNonNegative(c.im);
  }

  /** The magnitude is non-negative, and zero exactly when the squared magnitude is. */
  lemma AbsZeroIff(c: ComplexNumber, r: real)
    requires IsAbs(c, r)
    ensures r >= 0.0
    ensures r == 0.0 <==> NormSq(c) == 0.0
  {
    NormSqNonNegative(c);
    AbsAtMostIff(c, r, 0.0);
  }

  /** For a non-negative bound t, `getAbs() <= t` is the square-root-free test re^2 + im^2 <= t^2. */
  lemma AbsAtMostIff(c: ComplexNumber, r: real, t: real)
    requires IsAbs(c, r)
    requires t >= 0.0
    ensures r <= t <==> NormSq(c) <= t * t
  {
    if r < t {
      SquareStrictlyIncreasing(r, t);
    } else if t < r {
      SquareStrictlyIncreasing(t, r);
    }
  }
}
