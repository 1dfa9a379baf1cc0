/** Mixed-radix facts used by the tensor addressing proofs: a number written
    as `hi * radix + lo` with `lo < radix` has exactly one such writing. */
module Arith {

  /** The number with high digit hi and low digit lo in the given radix. */
  function Digits(hi: nat, lo: nat, radix: nat): nat {
    hi * radix + lo
  }

  /** The number without its lowest digit. */
  function High(k: nat, radix: nat): nat
    requires 0 < radix
  {
    k / radix
  }

  /** The lowest digit of a number. */
  function Low(k: nat, radix: nat): nat
    requires 0 < radix
  {
    k % radix
  }

  lemma MulMonotone(a: nat, b: nat, c: nat)
    requires a <= b
    ensures a * c <= b * c
  {
    var d := b - a;
    assert b * c == a * c + d * c;
  }

  /** One more digit stays below the next power of the radix. */
  lemma DigitBound(hi: nat, lo: nat, radix: nat, bound: nat)
    requires lo < radix && hi < bound
    ensures hi * radix + lo < bound * radix
  {
    MulMonotone(hi + 1, bound, radix);
    assert (hi + 1) * radix == hi * radix + radix;
  }

  /** The digits of a mixed-radix number are determined by its value. */
  lemma DigitUnique(hi1: nat, lo1: nat, hi2: nat, lo2: nat, radix: nat)
    requires lo1 < radix && lo2 < radix
    requires hi1 * radix + lo1 == hi2 * radix + lo2
    ensures hi1 == hi2 && lo1 == lo2
  {
    if hi1 < hi2 {
      DigitBound(hi1, lo1, radix, hi2);
    } else if hi2 < hi1 {
      DigitBound(hi2, lo2, radix, hi1);
    }
  }

  /** Every number below `bound * radix` splits into a digit pair. */
  lemma DigitSplit(k: nat, radix: nat, bound: nat)
    requires 0 < radix && k < bound * radix
    ensures k == Digits(High(k, radix), Low(k, radix), radix)
    ensures Low(k, radix) < radix && High(k, radix) < bound
  {
    if bound <= k / radix {
      MulMonotone(bound, k / radix, radix);
    }
  }
}
