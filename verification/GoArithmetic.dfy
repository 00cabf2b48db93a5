/** Go's integer division, which truncates toward zero. */
module GoArithmetic {

  function Div(a: int, b: int): (q: int)
    requires b > 0
    ensures a >= 0 ==> q * b <= a < (q + 1) * b
    ensures a < 0 ==> (q - 1) * b < a <= q * b
  {
    if a >= 0 then a / b else -((-a) / b)
  }

  /** A part at fixed basis points grows with the amount. */
  lemma {:induction false} PartMonotone(a: int, b: int, bps: nat)
    requires 0 <= a <= b
    ensures 0 <= Div(a * bps, 10000) <= Div(b * bps, 10000)
  {
  }
}
