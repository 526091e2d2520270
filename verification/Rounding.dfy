/** Rounding as Python's round does it, on exact quotients. */
module Rounding {
  /** Python's round, of the quotient n / d: to the nearest integer, ties to the even one. */
  function RoundHalfEven(n: nat, d: nat): nat
    requires d > 0
  {
    var q, r := n / d, n % d;
    if 2 * r < d || (2 * r == d && q % 2 == 0) then q else q + 1
  }

  /** The result is as near as an integer can be, and even when two are equally near. */
  lemma RoundsToNearest(n: nat, d: nat)
    requires d > 0
    ensures var off: int := 2 * (n - RoundHalfEven(n, d) * d);
      0 <= off + d && off <= d && (off == d || off + d == 0 ==> RoundHalfEven(n, d) % 2 == 0)
  {
    var q, r := n / d, n % d;
    assert n == q * d + r;
    assert (q + 1) * d == q * d + d;
  }
}
