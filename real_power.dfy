/** Integer powers over the reals and the naturals, as used by the scale formulas. */
module RealPower {

  /** b raised to the integer exponent e (negative exponents divide). */
  function Pow(b: real, e: int): (r: real)
    requires b > 0.0
    ensures r > 0.0
    decreases if e < 0 then -e else e
  {
    if e == 0 then 1.0
    else if e > 0 then b * Pow(b, e - 1)
    else Pow(b, e + 1) / b
  }

  /** 2 raised to a natural exponent, over the naturals. */
  function Pow2(n: nat): (r: nat)
    ensures r >= 1
  {
    if n == 0 then 1 else 2 * Pow2(n - 1)
  }
}
