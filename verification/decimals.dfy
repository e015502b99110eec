/** The .NET `decimal` operations the core uses. `decimal` is exact base-10
    arithmetic, so it is modelled on `real`; `Math.Round` rounds to the nearest
    value and breaks ties towards the even neighbour (banker's rounding). */
module Decimals {

  /** `Decimal.MaxValue`, 2^96 - 1. */
  const DecimalMaxValue: real := 79228162514264337593543950335.0

  const Int32MaxValue: int := 0x7FFF_FFFF
  const Int32MinValue: int := -0x8000_0000

  /** The messages of the OverflowException .NET raises for these types. */
  const DecimalOverflowMessage: string := "Value was either too large or too small for a Decimal."
  const Int32OverflowMessage: string := "Value was either too large or too small for an Int32."

  /** `Math.Round(decimal)`: the nearest integer, a tie going to the even one. */
  function RoundToEven(x: real): (n: int)
    ensures x - 0.5 <= n as real <= x + 0.5
    ensures (n as real - x == 0.5 || x - n as real == 0.5) ==> n % 2 == 0
  {
    var f := x.Floor;
    var fraction := x - f as real;
    if fraction < 0.5 then f
    else if fraction > 0.5 then f + 1
    else if f % 2 == 0 then f else f + 1
  }

  /** The two clauses of RoundToEven's contract pin its result down: no other
      integer is that close to `x` with that tie rule. */
  lemma RoundToEvenIsUnique(x: real, n: int)
    requires x - 0.5 <= n as real <= x + 0.5
    requires (n as real - x == 0.5 || x - n as real == 0.5) ==> n % 2 == 0
    ensures n == RoundToEven(x)
  {
  }

  lemma RoundToEvenMonotone(x: real, y: real)
    requires x <= y
    ensures RoundToEven(x) <= RoundToEven(y)
  {
    if x < y {
      var a, b := RoundToEven(x), RoundToEven(y);
      assert a as real - b as real < 1.0;
    }
  }

  lemma RoundToEvenOfInteger(n: int)
    ensures RoundToEven(n as real) == n
  {
  }

  /** A value with at most two decimal places. */
  predicate HasTwoDecimals(r: real) {
    (r * 100.0).Floor as real == r * 100.0
  }

  /** `Math.Round(decimal, 2)`: the nearest multiple of 0.01, a tie going to the
      even number of hundredths. */
  function RoundTo2(x: real): (r: real)
    ensures HasTwoDecimals(r)
    ensures x - 0.005 <= r <= x + 0.005
    ensures (r - x == 0.005 || x - r == 0.005) ==> (r * 100.0).Floor % 2 == 0
  {
    var hundredths := RoundToEven(x * 100.0);
    assert (hundredths as real / 100.0) * 100.0 == hundredths as real;
    hundredths as real / 100.0
  }

  lemma RoundTo2Monotone(x: real, y: real)
    requires x <= y
    ensures RoundTo2(x) <= RoundTo2(y)
  {
    RoundToEvenMonotone(x * 100.0, y * 100.0);
  }

  /** Rounding a value that already has two decimals changes nothing. */
  lemma RoundTo2Idempotent(x: real)
    requires HasTwoDecimals(x)
    ensures RoundTo2(x) == x
  {
    var n := (x * 100.0).Floor;
    RoundToEvenOfInteger(n);
    assert RoundToEven(x * 100.0) == n;
  }

  lemma RoundTo2NonNegative(x: real)
    requires x >= 0.0
    ensures RoundTo2(x) >= 0.0
  {
    RoundTo2Monotone(0.0, x);
    RoundToEvenOfInteger(0);
  }
}
