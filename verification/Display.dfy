/** The displayed average: a 28-digit decimal division, then rounding half up to four places. */
module Display {

  const TEN_4: nat := 10_000
  const TEN_23: nat := 100_000_000_000_000_000_000_000
  const TEN_27: nat := 1_000_000_000_000_000_000_000_000_000

  /** `p / q` to the nearest integer, a tie going to the even one (the decimal context's default). */
  function RoundHalfEven(p: nat, q: nat): nat
    requires q > 0
  {
    var down := p / q;
    var rest := p % q;
    if 2 * rest < q then down
    else if 2 * rest > q then down + 1
    else if down % 2 == 0 then down else down + 1
  }

  /** `p / q` to the nearest integer, a tie going up. */
  function RoundHalfUp(p: nat, q: nat): nat
    requires q > 0
  {
    (2 * p + q) / (2 * q)
  }

  /**
   The quotient `sum / count` at 28 significant digits, as a multiple of 1e-27. An average
   between 1 and 5 has one digit before the point and so 27 after it.
   */
  function Quotient28(sum: nat, count: nat): nat
    requires 0 < count <= sum <= 5 * count
  {
    RoundHalfEven(sum * TEN_27, count)
  }

  /** What the reader sees, as a multiple of 0.0001. */
  function Displayed(sum: nat, count: nat): nat
    requires 0 < count <= sum <= 5 * count
  {
    RoundHalfUp(Quotient28(sum, count), TEN_23)
  }

  /** Half-up rounding of the exact fraction, as a multiple of 0.0001. */
  function ExactlyRounded(sum: nat, count: nat): nat
    requires count > 0
  {
    RoundHalfUp(sum * TEN_4, count)
  }

  // ---------- products ----------

  lemma CancelFactor(a: int, b: int, n: nat)
    requires n > 0
    ensures a * n < b * n ==> a < b
    ensures a * n <= b * n ==> a <= b
  {}

  lemma ScaleOrder(a: int, b: int, n: nat)
    requires a <= b
    ensures a * n <= b * n
  {}

  // ---------- the two roundings ----------

  /** `RoundHalfEven` is off by at most half a unit. */
  lemma RoundHalfEvenError(p: nat, q: nat)
    requires q > 0
    ensures -(q as int) <= 2 * (RoundHalfEven(p, q) * q - p) <= q
  {
    var down, rest := p / q, p % q;
    assert p == down * q + rest;
    assert (down + 1) * q == down * q + q;
  }

  /** The value of a half-up rounding is the one whose half-open interval holds the fraction. */
  lemma RoundHalfUpInterval(p: nat, q: nat, k: nat)
    requires q > 0
    ensures RoundHalfUp(p, q) == k <==> 2 * q * k <= 2 * p + q < 2 * q * (k + 1)
  {
    QuotientInterval(2 * p + q, 2 * q, k);
  }

  lemma QuotientInterval(n: nat, m: nat, k: nat)
    requires m > 0
    ensures n / m == k <==> m * k <= n < m * (k + 1)
  {
    var d := n / m;
    assert n == d * m + n % m;
    assert (d + 1) * m == d * m + m;
    CancelFactor(d, k + 1, m);
    CancelFactor(k, d + 1, m);
  }

  /**
   With `u` steps of the finer rounding to one step of the coarser, an integer `q` within
   half a fine step of `e * u / count` lies in the same coarse interval as `e / count`.
   */
  lemma BoundaryIsNotCrossed(e: nat, count: nat, u: nat, q: nat, k: nat)
    requires 0 < count < u && u % 2 == 0
    requires -(count as int) <= 2 * (q * count - e * u) <= count
    requires 2 * count * k <= 2 * e + count < 2 * count * (k + 1)
    ensures 2 * u * k <= 2 * q + u < 2 * u * (k + 1)
  {
    TwiceProduct(count, k);
    TwiceProduct(u, k);
    FineIsSmall(e, count, u, q, k, 2 * e + count - 2 * (count * k), 2 * q + u - 2 * (u * k), 2 * (q * count - e * u));
  }

  lemma TwiceProduct(n: nat, k: nat)
    ensures 2 * n * k == 2 * (n * k)
    ensures 2 * n * (k + 1) == 2 * (n * k) + 2 * n
  {}

  lemma FineIsSmall(e: nat, count: nat, u: nat, q: nat, k: nat, coarse: int, fine: int, slack: int)
    requires 0 < count < u && u % 2 == 0
    requires coarse == 2 * e + count - 2 * (count * k) && 0 <= coarse <= 2 * count - 1
    requires fine == 2 * q + u - 2 * (u * k)
    requires slack == 2 * (q * count - e * u) && -(count as int) <= slack <= count
    ensures 0 <= fine < 2 * u
  {
    assert fine % 2 == 0 by {
      EvenFine(q, u, u * k);
    }
    assert fine * count == coarse * u + slack && (2 * count - 1) * u == 2 * u * count - u by {
      Expand(e, count, u, q, k);
    }
    ScaleOrder(0, coarse, u);
    ScaleOrder(coarse, 2 * count - 1, u);
    FineBounds(fine, count, u, coarse * u, slack);
  }

  lemma EvenFine(q: int, u: int, m: int)
    requires u % 2 == 0
    ensures (2 * q + u - 2 * m) % 2 == 0
  {}

  lemma FineBounds(fine: int, count: nat, u: nat, scaled: int, slack: int)
    requires 0 < count < u && fine % 2 == 0
    requires fine * count == scaled + slack && -(count as int) <= slack <= count
    requires 0 <= scaled <= 2 * u * count - u
    ensures 0 <= fine < 2 * u
  {
    CancelFactor(-1, fine, count);
    CancelFactor(fine, 2 * u, count);
  }

  lemma Expand(e: nat, count: nat, u: nat, q: nat, k: nat)
    ensures (2 * q + u - 2 * (u * k)) * count
         == (2 * e + count - 2 * (count * k)) * u + 2 * (q * count - e * u)
    ensures (2 * count - 1) * u == 2 * u * count - u
  {
    assert u * k * count == count * k * u;
  }

  /** Rounding first to 28 digits never moves an average across a display boundary. */
  lemma TwoStageRoundingIsExact(sum: nat, count: nat)
    requires 0 < count <= sum <= 5 * count
    requires count < TEN_23
    ensures Displayed(sum, count) == ExactlyRounded(sum, count)
  {
    var q, k := Quotient28(sum, count), ExactlyRounded(sum, count);
    RoundHalfEvenError(sum * TEN_27, count);
    RoundHalfUpInterval(sum * TEN_4, count, k);
    BoundaryIsNotCrossed(sum * TEN_4, count, TEN_23, q, k);
    RoundHalfUpInterval(q, TEN_23, k);
  }

  lemma ExactlyRoundedError(e: nat, count: nat, k: nat)
    requires count > 0
    requires k == RoundHalfUp(e, count)
    ensures -(count as int) < 2 * (k * count - e) <= count
  {
    RoundHalfUpInterval(e, count, k);
    assert 2 * count * k == 2 * (k * count);
    assert 2 * count * (k + 1) == 2 * (k * count) + 2 * count;
  }

  /** The displayed value is a rating between 1 and 5 and is off by at most 0.00005. */
  lemma DisplayedIsAccurate(sum: nat, count: nat)
    requires 0 < count <= sum <= 5 * count
    requires count < TEN_23
    ensures TEN_4 <= Displayed(sum, count) <= 5 * TEN_4
    ensures -(count as int) < 2 * (Displayed(sum, count) * count - sum * TEN_4) <= count
  {
    TwoStageRoundingIsExact(sum, count);
    var k := ExactlyRounded(sum, count);
    ExactlyRoundedError(sum * TEN_4, count, k);
    assert (2 * k + 1) * count == 2 * (k * count) + count;
    assert (2 * k - 1) * count == 2 * (k * count) - count;
    CancelFactor(2 * TEN_4, 2 * k + 1, count);
    CancelFactor(2 * k - 1, 10 * TEN_4, count);
  }

  /** A larger exact average is never displayed as a smaller one. */
  lemma DisplayedIsMonotone(sumA: nat, countA: nat, sumB: nat, countB: nat)
    requires 0 < countA <= sumA <= 5 * countA && countA < TEN_23
    requires 0 < countB <= sumB <= 5 * countB && countB < TEN_23
    requires sumA * countB >= sumB * countA
    ensures Displayed(sumA, countA) >= Displayed(sumB, countB)
  {
    TwoStageRoundingIsExact(sumA, countA);
    TwoStageRoundingIsExact(sumB, countB);
    var a, b := ExactlyRounded(sumA, countA), ExactlyRounded(sumB, countB);
    ExactlyRoundedError(sumA * TEN_4, countA, a);
    ExactlyRoundedError(sumB * TEN_4, countB, b);
    RoundedOrder(sumA, countA, a, sumB, countB, b);
  }

  /** Compare both intervals after multiplying by both counts. */
  lemma RoundedOrder(sumA: nat, countA: nat, a: nat, sumB: nat, countB: nat, b: nat)
    requires countA > 0 && countB > 0
    requires 2 * (sumA * TEN_4) - 2 * (a * countA) < countA
    requires 2 * (b * countB) - 2 * (sumB * TEN_4) <= countB
    requires sumA * countB >= sumB * countA
    ensures b <= a
  {
    var n := countA * countB;
    ScaledGap(sumA * TEN_4, countA, a, countB);
    ScaledGap(sumB * TEN_4, countB, b, countA);
    Reassociate(sumA, countB);
    Reassociate(sumB, countA);
    var upper, lower := a * countA * countB, b * countB * countA;
    SameScale(a, countA, countB);
    SameScale(b, countB, countA);
    assert b * n < (a + 1) * n by {
      assert 2 * lower - 2 * upper < 2 * n;
    }
    CancelFactor(b, a + 1, n);
  }

  lemma Reassociate(sum: nat, count: nat)
    ensures sum * TEN_4 * count == TEN_4 * (sum * count)
  {}

  lemma SameScale(k: nat, x: nat, y: nat)
    ensures k * x * y == k * (x * y) == k * (y * x)
    ensures (k + 1) * (x * y) == k * (x * y) + x * y
  {}

  lemma ScaledGap(e: nat, count: nat, k: nat, other: nat)
    requires other > 0
    ensures 2 * e - 2 * (k * count) < count ==> 2 * (e * other) - 2 * (k * count * other) < count * other
    ensures 2 * (k * count) - 2 * e <= count ==> 2 * (k * count * other) - 2 * (e * other) <= count * other
  {
    var kc := k * count;
    assert (2 * e - 2 * kc) * other == 2 * (e * other) - 2 * (kc * other);
    if 2 * kc - 2 * e <= count {
      ScaleOrder(2 * kc - 2 * e, count, other);
    }
    CancelFactor(count, 2 * e - 2 * kc, other);
  }
}
