/** Natural-number powers, used to count the primitives of the recursive generators. */
module Powers {

  /** b raised to the e-th power. */
  function Pow(b: nat, e: nat): (r: nat)
    ensures b > 0 ==> r > 0
  {
    if e == 0 then 1 else b * Pow(b, e - 1)
  }
}
