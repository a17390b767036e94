/** Averages shown to one decimal place, kept as integer tenths.

    The components compute `Math.round(x * 10) / 10` where `x` is a quotient of
    integers. Over the rationals `Math.round(y)` is `floor(y + 1/2)`: the
    nearest integer, halves rounded up. `RoundDiv(p, q)` is that value for
    `y = p / q`, and `MeanTenths(sum, count)` is the one-decimal mean of
    `count` numbers adding up to `sum`, times ten. */
module Rounding {

  /** Math.round(p / q) for a positive denominator. The contract is the
      defining property: p / q lies within half a unit of the result, with
      the half below included and the half above excluded. */
  function RoundDiv(p: int, q: int): (r: int)
    requires q > 0
    ensures q * (2 * r - 1) <= 2 * p < q * (2 * r + 1)
  {
    var n := 2 * p + q;
    var d := 2 * q;
    var r := n / d;
    assert d * r <= n < d * r + d by {
      assert n == d * r + n % d;
    }
    assert q * (2 * r - 1) == d * r - q;
    assert q * (2 * r + 1) == d * r + q;
    r
  }

  /** Only one integer is within half a unit of p / q in that sense, so the
      contract of RoundDiv determines it. */
  lemma RoundDivUnique(p: int, q: int, a: int)
    requires q > 0
    requires q * (2 * a - 1) <= 2 * p < q * (2 * a + 1)
    ensures RoundDiv(p, q) == a
  {
    var r := RoundDiv(p, q);
    if r < a {
      MulMonotone(q, 2 * r + 1, 2 * a - 1);
    } else if a < r {
      MulMonotone(q, 2 * a + 1, 2 * r - 1);
    }
  }

  lemma MulMonotone(q: int, x: int, y: int)
    requires q > 0 && x <= y
    ensures q * x <= q * y
  {
    assert q * y - q * x == q * (y - x);
  }

  /** Rounding a quotient that lies between two integers stays between them. */
  lemma RoundDivBounds(p: int, q: int, lo: int, hi: int)
    requires q > 0
    requires lo * q <= p <= hi * q
    ensures lo <= RoundDiv(p, q) <= hi
  {
    var r := RoundDiv(p, q);
    if r < lo {
      MulMonotone(q, 2 * r + 1, 2 * lo - 1);
    }
    if hi < r {
      MulMonotone(q, 2 * hi + 1, 2 * r - 1);
    }
  }

  /** An exact quotient is not moved by rounding. */
  lemma RoundDivExact(k: int, q: int)
    requires q > 0
    ensures RoundDiv(k * q, q) == k
  {
    RoundDivUnique(k * q, q, k);
  }

  /** The mean of `count` values adding up to `sum`, rounded to one decimal
      and expressed in tenths. */
  function MeanTenths(sum: int, count: int): (t: int)
    requires count > 0
    ensures count * (2 * t - 1) <= 20 * sum < count * (2 * t + 1)
  {
    RoundDiv(10 * sum, count)
  }

  /** Values from `lo` to `hi` have a displayed mean from `lo` to `hi`. */
  lemma MeanTenthsBounds(sum: int, count: int, lo: int, hi: int)
    requires count > 0
    requires lo * count <= sum <= hi * count
    ensures 10 * lo <= MeanTenths(sum, count) <= 10 * hi
  {
    RoundDivBounds(10 * sum, count, 10 * lo, 10 * hi);
  }
}
