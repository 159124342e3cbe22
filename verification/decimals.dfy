/** The decimal arithmetic the bot relies on: Python `Decimal` values, the exact values of the
    float literals they are compared with, and `round(d, 2)`. */
module Decimals {

  /** A parsed `Decimal`: its exact value and `str()` of it, which is what gets stored. */
  datatype Decimal = Decimal(value: real, text: string)

  // Python compares a Decimal with a float exactly, so a float literal stands for the binary64
  // number nearest to it, not for the decimal it is written as.
  /** The float `0.0001`. */
  const Float0_0001: real := 7378697629483821.0 / 73786976294838206464.0
  /** The float `0.001`. */
  const Float0_001: real := 1152921504606847.0 / 1152921504606846976.0
  /** The float `0.1`. */
  const Float0_1: real := 3602879701896397.0 / 36028797018963968.0

  /** The binary64 values lie just above the decimals they are written as, so `Decimal('0.001')`
      is below the float `0.001` and `Decimal('0.0001')` below the float `0.0001`. */
  lemma FloatLiteralsAboveDecimals()
    ensures 0.0001 < Float0_0001 < 0.00010001
    ensures 0.001 < Float0_001 < 0.0010001
    ensures 0.1 < Float0_1 < 0.10001
  {
  }

  predicate IsCents(r: real)
  {
    (r * 100.0).Floor as real == r * 100.0
  }

  /** `round(d, 2)` on a Decimal: to the nearest hundredth, ties to the even hundredth. */
  function Round2(x: real): (r: real)
    ensures IsCents(r)
    ensures -0.005 <= r - x <= 0.005
  {
    var n := (x * 100.0).Floor;
    var f := x * 100.0 - n as real;
    var k := if f > 0.5 then n + 1 else if f < 0.5 then n else if n % 2 == 0 then n else n + 1;
    assert (k as real / 100.0) * 100.0 == k as real;
    k as real / 100.0
  }

  /** A value already in whole hundredths is left as it is. */
  lemma Round2Exact(x: real)
    requires IsCents(x)
    ensures Round2(x) == x
  {
    var n := (x * 100.0).Floor;
    assert x * 100.0 - n as real == 0.0;
    assert (n as real / 100.0) == x;
  }

  /** Rounding twice is rounding once. */
  lemma Round2Idempotent(x: real)
    ensures Round2(Round2(x)) == Round2(x)
  {
    Round2Exact(Round2(x));
  }

  /** A tie goes to the even hundredth: 0.125 to 0.12 and 0.135 to 0.14. */
  lemma Round2HalfEven()
    ensures Round2(0.125) == 0.12
    ensures Round2(0.135) == 0.14
  {
    assert (0.125 * 100.0).Floor == 12;
    assert (0.135 * 100.0).Floor == 13;
  }
  /** Round half to even for every input: a value exactly halfway between two hundredths goes
      to the one with an even count of hundredths, which lies half a hundredth away; any other
      value goes to the strictly nearest hundredth. */
  lemma Round2TiesToEven(x: real)
    ensures x * 100.0 - (x * 100.0).Floor as real == 0.5 ==>
      (Round2(x) * 100.0).Floor % 2 == 0 && (Round2(x) - x == 0.005 || x - Round2(x) == 0.005)
    ensures x * 100.0 - (x * 100.0).Floor as real != 0.5 ==> -0.005 < Round2(x) - x < 0.005
  {
    var n := (x * 100.0).Floor;
    var f := x * 100.0 - n as real;
    var k := if f > 0.5 then n + 1 else if f < 0.5 then n else if n % 2 == 0 then n else n + 1;
    assert Round2(x) == k as real / 100.0;
    assert Round2(x) * 100.0 == k as real;
    assert (k as real).Floor == k;
  }
}
