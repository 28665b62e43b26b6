/** `AverageCostCalculator`: the whole-cent weighted mean over a list of batches. */
module AverageCost {
  import opened Sequences
  import opened StockTypes
  import Basics
  import Money
  import StockEffects

  /** Each batch counts with its remaining quantity rounded to a whole number. */
  function Units(b: BatchView): int {
    Basics.Round(Amount(b))
  }

  function TotalUnits(bs: seq<BatchView>): int {
    if bs == [] then 0 else TotalUnits(bs[..|bs| - 1]) + Units(bs[|bs| - 1])
  }

  function TotalCost(bs: seq<BatchView>): int {
    if bs == [] then 0
    else TotalCost(bs[..|bs| - 1]) + bs[|bs| - 1].unitCost * Units(bs[|bs| - 1])
  }

  predicate NotNegative(bs: seq<BatchView>) {
    forall b :: b in bs ==> Amount(b) >= 0.0
  }

  /** Every batch that counts costs between lo and hi. */
  predicate CountedWithin(bs: seq<BatchView>, lo: int, hi: int) {
    forall b :: b in bs && Units(b) != 0 ==> lo <= b.unitCost <= hi
  }

  lemma Between(u: int, c: int, lo: int, hi: int)
    requires u >= 0 && (u != 0 ==> lo <= c <= hi)
    ensures lo * u <= c * u <= hi * u
  {
  }

  lemma {:induction false} TotalsBetween(bs: seq<BatchView>, lo: int, hi: int)
    requires NotNegative(bs) && CountedWithin(bs, lo, hi)
    ensures TotalUnits(bs) >= 0
    ensures lo * TotalUnits(bs) <= TotalCost(bs) <= hi * TotalUnits(bs)
  {
    if bs != [] {
      var front, b := bs[..|bs| - 1], bs[|bs| - 1];
      assert b in bs && forall x :: x in front ==> x in bs;
      TotalsBetween(front, lo, hi);
      Between(Units(b), b.unitCost, lo, hi);
      Distribute(lo, TotalUnits(front), Units(b));
      Distribute(hi, TotalUnits(front), Units(b));
      hide Units, TotalUnits, TotalCost;
    }
  }

  lemma Distribute(k: int, a: int, b: int)
    ensures k * (a + b) == k * a + k * b
  {
  }

  lemma {:induction false} TotalsNonNegative(bs: seq<BatchView>)
    requires NotNegative(bs)
    ensures TotalUnits(bs) >= 0 && TotalCost(bs) >= 0
  {
    if bs != [] {
      var front, b := bs[..|bs| - 1], bs[|bs| - 1];
      assert b in bs && forall x :: x in front ==> x in bs;
      TotalsNonNegative(front);
      Between(Units(b), b.unitCost, 0, b.unitCost);
    }
  }

  /** The bigint quotient of a non-negative cost is the floor. */
  lemma FloorQuotient(c: int, q: int)
    requires c >= 0 && q > 0
    ensures var a := Money.TruncDiv(c, q);
            a >= 0 && a * q <= c < (a + 1) * q
  {
    var a := c / q;
    assert c == q * a + c % q;
    Distribute(q, a, 1);
    if a < 0 {
      Between(q, a, a, -1);
    }
  }

  lemma QuotientBounds(a: int, c: int, q: int, lo: int, hi: int)
    requires q > 0 && a * q <= c < (a + 1) * q && lo * q <= c <= hi * q
    ensures lo <= a <= hi
  {
    if a < lo {
      Between(q, a + 1, a + 1, lo);
    }
    if a > hi {
      Between(q, hi + 1, hi + 1, a);
    }
  }

  // ---------------------------------------------------------------- against the exact mean

  function ExactValue(): BatchView -> real {
    (b: BatchView) => Amount(b) * b.unitCost as real
  }

  predicate AllWhole(bs: seq<BatchView>) {
    forall b :: b in bs ==> StockEffects.Whole(Amount(b))
  }

  lemma SumSnoc(bs: seq<BatchView>)
    requires bs != []
    ensures var init, last := bs[..|bs| - 1], bs[|bs| - 1];
            && Sum(bs, Amount) == Sum(init, Amount) + Amount(last)
            && Sum(bs, ExactValue()) == Sum(init, ExactValue()) + ExactValue()(last)
  {
    var init, last := bs[..|bs| - 1], bs[|bs| - 1];
    assert bs == init + [last];
    SumOne(init, last, Amount);
    SumOne(init, last, ExactValue());
  }

  /** What counts is within half a unit per batch of what there is. */
  lemma {:induction false} UnitsNearAmount(bs: seq<BatchView>)
    ensures Basics.AbsReal(TotalUnits(bs) as real - Sum(bs, Amount)) <= |bs| as real * 0.5
  {
    if bs != [] {
      UnitsNearAmount(bs[..|bs| - 1]);
      SumSnoc(bs);
    }
  }

  /** With whole quantities everything counts, at its cost. */
  lemma {:induction false} WholeCounts(bs: seq<BatchView>)
    requires AllWhole(bs)
    ensures TotalUnits(bs) as real == Sum(bs, Amount) && TotalCost(bs) as real == Sum(bs, ExactValue())
  {
    if bs != [] {
      var init, last := bs[..|bs| - 1], bs[|bs| - 1];
      assert last in bs && forall b :: b in init ==> b in bs;
      WholeCounts(init);
      SumSnoc(bs);
      WholeBatch(last);
      hide Sum, Units, ExactValue, StockEffects.Whole;
    }
  }

  lemma WholeBatch(b: BatchView)
    requires StockEffects.Whole(Amount(b))
    ensures Units(b) as real == Amount(b) && (b.unitCost * Units(b)) as real == ExactValue()(b)
  {
    var n := Amount(b).Floor;
    RoundWhole(n);
    assert Units(b) == n;
    hide Units, Basics.Round;
    Basics.RealProduct(b.unitCost, n, b.unitCost * n);
    assert ExactValue()(b) == n as real * b.unitCost as real;
  }

  lemma RoundWhole(n: int)
    ensures Basics.Round(n as real) == n
  {
  }

  lemma QuotientOf(a: int, u: int, c: int, units: real, cost: real)
    requires u > 0 && a * u <= c < (a + 1) * u && units == u as real && cost == c as real
    ensures a as real <= cost / units < (a + 1) as real
  {
    Basics.RealProduct(a, u, a * u);
    Basics.RealProduct(a + 1, u, (a + 1) * u);
    MeanWithin(a as real, cost, units, (a + 1) as real, (a * u) as real, ((a + 1) * u) as real);
  }

  lemma MeanWithin(lo: real, cost: real, units: real, hi: real, lower: real, upper: real)
    requires units > 0.0 && lower == lo * units && upper == hi * units && lower <= cost < upper
    ensures lo <= cost / units < hi
  {
    var x := cost / units;
    Basics.Divided(cost, units);
    Basics.Cancel(lo, x, units, lower, cost);
    Basics.CancelStrict(x, hi, units, cost, upper);
  }

  /** With whole quantities the average is the exact weighted mean, rounded down. */
  lemma AverageIsFloor(bs: seq<BatchView>, average: int)
    requires AllWhole(bs) && TotalUnits(bs) > 0
    requires average * TotalUnits(bs) <= TotalCost(bs) < (average + 1) * TotalUnits(bs)
    ensures Sum(bs, Amount) > 0.0
    ensures average == (Sum(bs, ExactValue()) / Sum(bs, Amount)).Floor
  {
    WholeCounts(bs);
    QuotientOf(average, TotalUnits(bs), TotalCost(bs), Sum(bs, Amount), Sum(bs, ExactValue()));
    hide Sum, TotalUnits, TotalCost;
  }

  lemma PrefixTotals(bs: seq<BatchView>, i: nat)
    requires i < |bs|
    ensures TotalUnits(bs[..0]) == 0 && TotalCost(bs[..0]) == 0
    ensures TotalUnits(bs[..i + 1]) == TotalUnits(bs[..i]) + Units(bs[i])
    ensures TotalCost(bs[..i + 1]) == TotalCost(bs[..i]) + bs[i].unitCost * Units(bs[i])
  {
    assert bs[..i + 1][..i] == bs[..i];
  }

  /** The loop: cost and count of the batches, each at its rounded quantity. */
  method AddUp(batches: seq<BatchView>) returns (totalCostCents: int, totalAmount: int)
    ensures totalCostCents == TotalCost(batches) && totalAmount == TotalUnits(batches)
  {
    totalCostCents, totalAmount := 0, 0;
    var i := 0;
    while i < |batches|
      invariant i <= |batches|
      invariant totalCostCents == TotalCost(batches[..i])
      invariant totalAmount == TotalUnits(batches[..i])
    {
      PrefixTotals(batches, i);
      var qty := Basics.Round(batches[i].remaining.amount);
      totalCostCents := totalCostCents + batches[i].unitCost * qty;
      totalAmount := totalAmount + qty;
      i := i + 1;
    }
    assert batches[..i] == batches;
  }

  /** The average in cents: nothing counted gives zero, otherwise the floor of the weighted mean. */
  method Calculate(batches: seq<BatchView>) returns (average: int)
    requires NotNegative(batches)
    ensures TotalUnits(batches) >= 0 && average >= 0
    ensures TotalUnits(batches) == 0 ==> average == 0
    ensures TotalUnits(batches) > 0 ==>
              average * TotalUnits(batches) <= TotalCost(batches) < (average + 1) * TotalUnits(batches)
  {
    TotalsNonNegative(batches);
    hide TotalUnits, TotalCost, Money.CentsToMoney, Money.MoneyFromCents, Money.TruncDiv;
    if |batches| == 0 {
      NothingCounted();
      return 0;
    }
    var totalCostCents, totalAmount := AddUp(batches);
    if totalAmount == 0 {
      return 0;
    }
    var avgCents := Money.TruncDiv(totalCostCents, totalAmount);
    FloorQuotient(totalCostCents, totalAmount);
    Money.PrintersRoundTrip(avgCents);
    average := Money.CentsToMoney(avgCents).value;
  }

  lemma NothingCounted()
    ensures TotalUnits([]) == 0 && TotalCost([]) == 0
  {
  }

  /** Any result that meets that contract lies between the cheapest and the dearest batch that counts. */
  lemma AverageWithin(bs: seq<BatchView>, average: int, lo: int, hi: int)
    requires NotNegative(bs) && CountedWithin(bs, lo, hi) && TotalUnits(bs) > 0
    requires average * TotalUnits(bs) <= TotalCost(bs) < (average + 1) * TotalUnits(bs)
    ensures lo <= average <= hi
  {
    TotalsBetween(bs, lo, hi);
    QuotientBounds(average, TotalCost(bs), TotalUnits(bs), lo, hi);
  }
}
