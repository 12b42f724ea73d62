/**
 CPU and memory amounts, and the arithmetic of the percentage policy.

 An amount is an exact decimal, modelled by a `real`. The percentage itself is a
 64-bit integer in the source, and `100 + percentage` is computed in 64 bits, so
 the wrap-around is written out.
 */
module Quantities {

  type Quantity = real

  const MAX_INT64: int := 0x7fff_ffff_ffff_ffff
  const TWO_TO_63: int := 0x8000_0000_0000_0000
  const TWO_TO_64: int := 0x1_0000_0000_0000_0000

  type Int64 = x: int | -TWO_TO_63 <= x <= MAX_INT64

  /** 64-bit addition, wrapping around in two's complement. */
  function Add64(x: Int64, y: Int64): Int64
  {
    if x + y > MAX_INT64 then x + y - TWO_TO_64
    else if x + y < -TWO_TO_63 then x + y + TWO_TO_64
    else x + y
  }

  /** The least integer that is not below `x`. */
  function Ceiling(x: real): (n: int)
    ensures n as real - 1.0 < x <= n as real
  {
    -((-x).Floor)
  }

  /** Rounds towards positive infinity, keeping two decimal digits. */
  function RoundUpHundredths(x: real): (r: real)
    ensures x <= r < x + 0.01
  {
    Ceiling(x * 100.0) as real / 100.0
  }

  /** The factor by which a percentage policy multiplies an amount. */
  function Factor(percentage: Int64): real
  {
    Add64(100, percentage) as real / 100.0
  }

  function IncreaseQuantity(q: Quantity, percentage: Int64): Quantity
  {
    Scale(q, Factor(percentage))
  }

  function Scale(q: Quantity, factor: real): Quantity
  {
    RoundUpHundredths(q * factor)
  }

  ghost predicate IsHundredths(x: real)
  {
    exists n: int :: x == Hundredths(n)
  }

  function Hundredths(n: int): real
  {
    n as real / 100.0
  }

  /** Percentages for which `100 + percentage` does not wrap around. */
  predicate InRange(percentage: Int64)
  {
    0 <= percentage <= MAX_INT64 - 100
  }

  lemma CeilingIsLeast(x: real, n: int)
    requires x <= n as real
    ensures Ceiling(x) <= n
  {
    assert (Ceiling(x) - 1) as real < n as real;
  }

  /**
   The result is the least multiple of 0.01 at or above the exact product, so it
   overshoots by less than 0.01.
   */
  lemma IncreaseIsLeastHundredth(q: Quantity, percentage: Int64)
    ensures q * Factor(percentage) <= IncreaseQuantity(q, percentage) < q * Factor(percentage) + 0.01
    ensures IsHundredths(IncreaseQuantity(q, percentage))
    ensures forall n: int ::
              Hundredths(n) >= q * Factor(percentage) ==> Hundredths(n) >= IncreaseQuantity(q, percentage)
  {
    var x := q * Factor(percentage);
    assert IncreaseQuantity(q, percentage) == Hundredths(Ceiling(x * 100.0));
    forall n: int | Hundredths(n) >= x
      ensures Hundredths(n) >= IncreaseQuantity(q, percentage)
    {
      assert x * 100.0 <= n as real;
      CeilingIsLeast(x * 100.0, n);
    }
  }

  lemma ProductMonotone(a: real, b: real, c: real, d: real)
    requires 0.0 <= a <= b && 0.0 <= c <= d
    ensures a * c <= b * d
    ensures 0.0 <= a * c
  {
    assert a * c <= b * c;
    assert b * c <= b * d;
  }

  lemma RoundUpMonotone(x: real, y: real)
    requires x <= y
    ensures RoundUpHundredths(x) <= RoundUpHundredths(y)
  {
    CeilingIsLeast(x * 100.0, Ceiling(y * 100.0));
  }

  lemma ScaleMonotone(q: Quantity, q': Quantity, f: real, f': real)
    requires 0.0 <= q <= q' && 0.0 <= f <= f'
    ensures Scale(q, f) <= Scale(q', f')
  {
    ProductMonotone(q, q', f, f');
    RoundUpMonotone(q * f, q' * f');
  }

  lemma FactorMonotone(p: Int64, p': Int64)
    requires InRange(p) && InRange(p') && p <= p'
    ensures 1.0 <= Factor(p) <= Factor(p')
  {
  }

  /** The result grows with the amount and with the percentage. */
  lemma {:induction false} IncreaseIsMonotone(q: Quantity, q': Quantity, p: Int64, p': Int64)
    requires 0.0 <= q <= q'
    requires InRange(p) && InRange(p') && p <= p'
    ensures IncreaseQuantity(q, p) <= IncreaseQuantity(q', p')
  {
    FactorMonotone(p, p');
    ScaleMonotone(q, q', Factor(p), Factor(p'));
  }

  lemma IncreaseAtLeast(q: Quantity, p: Int64)
    requires 0.0 <= q && InRange(p)
    ensures q <= IncreaseQuantity(q, p)
  {
    ProductMonotone(q, q, 1.0, Factor(p));
  }

  /** The result has the sign of the factor wherever the amount is positive. */
  lemma IncreaseSign(q: Quantity, p: Int64)
    requires 0.0 < q
    ensures Factor(p) > 0.0 <==> IncreaseQuantity(q, p) > 0.0
  {
    if Factor(p) > 0.0 {
      assert q * Factor(p) > 0.0;
    } else {
      assert q * Factor(p) <= 0.0;
      CeilingIsLeast(q * Factor(p) * 100.0, 0);
    }
  }

  /**
   A percentage never lowers any amount exactly when it is not negative and
   `100 + percentage` fits in 64 bits.
   */
  lemma NeverBelowIffInRange(p: Int64)
    ensures (forall q: Quantity :: q >= 0.0 ==> IncreaseQuantity(q, p) >= q) <==> InRange(p)
  {
    if InRange(p) {
      forall q: Quantity | q >= 0.0
        ensures IncreaseQuantity(q, p) >= q
      {
        IncreaseAtLeast(q, p);
      }
    } else {
      assert Add64(100, p) <= 99;
      assert IncreaseQuantity(1.0, p) == RoundUpHundredths(1.0 * Factor(p));
      CeilingIsLeast(1.0 * Factor(p) * 100.0, Add64(100, p));
      assert IncreaseQuantity(1.0, p) < 1.0;
    }
  }
}
