/** The two averaged KPIs, kept as exact rationals: the mean of `Price_k`
    and the success rate `df['Is_Success'].mean() * 100`.  Rounding and
    the one-decimal rendering are not part of this module.
 */
module Kpis {
  import opened Sales
  import opened Classification

  function PriceSum(rows: seq<Record>): real
  {
    if rows == [] then 0.0 else rows[0].priceK + PriceSum(rows[1..])
  }

  /** `df['Price_k'].mean()` on a table with at least one row. */
  function MeanPrice(rows: seq<Record>): real
    requires rows != []
  {
    PriceSum(rows) / (|rows| as real)
  }

  lemma {:induction false} PriceSumBounds(rows: seq<Record>, lo: real, hi: real)
    requires forall x :: x in rows ==> lo <= x.priceK <= hi
    ensures (|rows| as real) * lo <= PriceSum(rows) <= (|rows| as real) * hi
  {
    if rows != [] {
      assert rows[0] in rows;
      PriceSumBounds(rows[1..], lo, hi);
      var m := |rows[1..]| as real;
      var s := PriceSum(rows[1..]);
      assert PriceSum(rows) == rows[0].priceK + s;
      assert |rows| as real == m + 1.0;
      Distribute(m, lo);
      Distribute(m, hi);
      assert (|rows| as real) * lo == m * lo + lo;
      assert (|rows| as real) * hi == m * hi + hi;
    }
  }

  lemma Distribute(m: real, x: real)
    ensures (m + 1.0) * x == m * x + x
  {
  }

  /** The mean price lies between the lowest and the highest price. */
  lemma MeanPriceBounds(rows: seq<Record>, lo: real, hi: real)
    requires rows != []
    requires forall x :: x in rows ==> lo <= x.priceK <= hi
    ensures lo <= MeanPrice(rows) <= hi
  {
    PriceSumBounds(rows, lo, hi);
    QuotientBounds(PriceSum(rows), |rows| as real, lo, hi);
  }

  /** A sum between n times two bounds divides by n to a value between them. */
  lemma QuotientBounds(s: real, n: real, lo: real, hi: real)
    requires n > 0.0 && n * lo <= s <= n * hi
    ensures lo <= s / n <= hi
  {
    var q := s / n;
    assert n * q == s;
    NegativeProduct(n, q - lo);
    NegativeProduct(n, hi - q);
    assert n * (q - lo) == s - n * lo;
    assert n * (hi - q) == n * hi - s;
  }

  lemma NegativeProduct(n: real, d: real)
    requires n > 0.0
    ensures d < 0.0 ==> n * d < 0.0
  {
  }

  function SuccessSum(rows: seq<Record>): int
  {
    if rows == [] then 0 else rows[0].isSuccess + SuccessSum(rows[1..])
  }

  /** `df['Is_Success'].mean() * 100` on a table with at least one row. */
  function SuccessRate(rows: seq<Record>): real
    requires rows != []
  {
    (SuccessSum(rows) as real) / (|rows| as real) * 100.0
  }

  /** `part` as a percentage of `whole`. */
  function Percentage(part: nat, whole: nat): real
    requires whole > 0
  {
    (part as real) / (whole as real) * 100.0
  }

  /** With 0/1 labels the sum of `Is_Success` counts the successful rows. */
  lemma {:induction false} SuccessSumCounts(rows: seq<Record>)
    requires forall x :: x in rows ==> x.isSuccess == 0 || x.isSuccess == 1
    ensures SuccessSum(rows) == CountOf(rows, 1)
  {
    if rows != [] {
      assert rows[0] in rows;
      assert forall x :: x in rows[1..] ==> x in rows;
      SuccessSumCounts(rows[1..]);
    }
  }

  /** With 0/1 labels the success rate is the percentage of successful rows
      and lies between 0 and 100. */
  lemma SuccessRateIsPercentage(rows: seq<Record>)
    requires rows != []
    requires forall x :: x in rows ==> x.isSuccess == 0 || x.isSuccess == 1
    ensures SuccessRate(rows) == Percentage(CountOf(rows, 1), |rows|)
    ensures 0.0 <= SuccessRate(rows) <= 100.0
  {
    SuccessSumCounts(rows);
    assert CountOf(rows, 1) <= |rows|;
    FractionAtMostOne(CountOf(rows, 1) as real, |rows| as real);
  }

  lemma FractionAtMostOne(c: real, n: real)
    requires 0.0 <= c <= n && n > 0.0
    ensures 0.0 <= c / n <= 1.0
  {
    assert c / n * n == c;
  }
}
