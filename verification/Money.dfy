/** Decimal quantisation: amounts are exact reals, stored amounts are whole quanta (cents). */
module Money {

  /** ROUND_HALF_UP of a value to a whole number of quanta: halves go away from zero. */
  function RoundHalfUp(x: real): (n: int)
    ensures -0.5 <= n as real - x <= 0.5
    ensures x - n as real == 0.5 ==> x < 0.0
    ensures n as real - x == 0.5 ==> x >= 0.0
  {
    if x >= 0.0 then (x + 0.5).Floor else -((0.5 - x).Floor)
  }

  /** A whole amount is already quantised, so quantising stored balances changes nothing. */
  lemma RoundWhole(n: int)
    ensures RoundHalfUp(n as real) == n
  {
  }

  lemma RoundMonotone(x: real, y: real)
    requires x <= y
    ensures RoundHalfUp(x) <= RoundHalfUp(y)
  {
  }

  /** Rounding commutes with negation: swapping the sides of a signed edge loses nothing. */
  lemma RoundOdd(x: real)
    ensures RoundHalfUp(-x) == -RoundHalfUp(x)
  {
  }

  /** A rounded amount exceeds a whole balance exactly from half a quantum above it. */
  lemma RoundExceeds(x: real, balance: int)
    requires x >= 0.0
    ensures RoundHalfUp(x) > balance <==> x >= balance as real + 0.5 || balance < 0
  {
  }
}
