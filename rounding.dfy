/**
 * Python's built-in `round` on numbers, over exact reals: `round(x)` to the
 * nearest integer and `round(x, 4)` / `round(x, 6)` to the nearest multiple
 * of 10^-4 / 10^-6, an exact half going to the even neighbour.
 */
module Rounding {

  /** Python's `round` on a number: nearest integer, halves to the even neighbour. */
  function RoundHalfEven(x: real): (r: int)
    ensures x - 0.5 <= r as real <= x + 0.5
    ensures (r as real == x + 0.5 || r as real == x - 0.5) ==> r % 2 == 0
  {
    var f := x.Floor;
    var d := x - f as real;
    if d < 0.5 then f
    else if d > 0.5 then f + 1
    else if f % 2 == 0 then f else f + 1
  }

  /** Rounding never reverses an order. */
  lemma RoundMonotone(x: real, y: real)
    requires x <= y
    ensures RoundHalfEven(x) <= RoundHalfEven(y)
  {
    var a, b := RoundHalfEven(x), RoundHalfEven(y);
    if x < y {
      assert b as real > a as real - 1.0;
    }
  }

  /** An integer rounds to itself. */
  lemma RoundInteger(k: int)
    ensures RoundHalfEven(k as real) == k
  {
    assert (k as real).Floor == k;
  }

  /** `round(x, 4)`. */
  function Round4(x: real): (r: real)
    ensures x - 0.00005 <= r <= x + 0.00005
  {
    RoundHalfEven(x * 10000.0) as real / 10000.0
  }

  /** `round(x, 6)`. */
  function Round6(x: real): (r: real)
    ensures x - 0.0000005 <= r <= x + 0.0000005
    ensures x >= 0.0 ==> r >= 0.0
  {
    RoundHalfEven(x * 1000000.0) as real / 1000000.0
  }

  /** Rounding to four places never reverses an order. */
  lemma Round4Monotone(x: real, y: real)
    requires x <= y
    ensures Round4(x) <= Round4(y)
  {
    RoundMonotone(x * 10000.0, y * 10000.0);
  }

  /** A whole number is its own rounding to four places. */
  lemma Round4Integer(k: int)
    ensures Round4(k as real) == k as real
  {
    RoundInteger(k * 10000);
    assert k as real * 10000.0 == (k * 10000) as real;
  }

  /** Rounding to four places keeps a value between two whole numbers between them. */
  lemma Round4Between(x: real, lo: int, hi: int)
    requires lo as real <= x <= hi as real
    ensures lo as real <= Round4(x) <= hi as real
  {
    Round4Monotone(lo as real, x);
    Round4Monotone(x, hi as real);
    Round4Integer(lo);
    Round4Integer(hi);
  }

  /** Rounding a rounded value to four places again changes nothing. */
  lemma Round4Idempotent(x: real)
    ensures Round4(Round4(x)) == Round4(x)
  {
    var k := RoundHalfEven(x * 10000.0);
    assert Round4(x) * 10000.0 == k as real;
    RoundInteger(k);
  }

  /** Example: exact values closer than the last place can round to the same number and so tie. */
  lemma NearValuesTie()
    ensures Round4(0.50001) == Round4(0.50004) == 0.5
  {
    assert (0.50001 * 10000.0).Floor == 5000;
    assert (0.50004 * 10000.0).Floor == 5000;
  }
}
