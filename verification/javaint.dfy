/** Java's integer arithmetic where it differs from Dafny's. */
module JavaInt {

  /**
   * Java's `a / d` for a positive divisor: the quotient truncated toward zero.
   * Dafny's `/` rounds toward negative infinity for a negative dividend, so
   * that case is written out.
   */
  function Div(a: int, d: int): (q: int)
    requires d > 0
    ensures a >= 0 ==> 0 <= a - d * q < d
    ensures a < 0 ==> 0 <= d * q - a < d
  {
    if a >= 0 then
      DivMod(a, d);
      a / d
    else
      DivMod(-a, d);
      -((-a) / d)
  }

  lemma DivMod(n: int, d: int)
    requires n >= 0 && d > 0
    ensures n == d * (n / d) + n % d && 0 <= n % d < d
  {
  }

  /** Truncation is symmetric about zero, unlike floor division. */
  lemma DivNegate(a: int, d: int)
    requires d > 0
    ensures Div(-a, d) == -Div(a, d)
  {
  }
}
