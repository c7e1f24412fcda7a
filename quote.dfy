/**
 * The arithmetic of `calculate_cost`: the cost of each category, the daily
 * total, the total over the fixed seven-day period and the same total with
 * value-added tax. All money amounts are whole won; the VAT-inclusive total
 * is kept as an exact rational and only rounded for display.
 */
module Quote {

  /** Number of days the quote covers; fixed in the form. */
  const Days: nat := 7

  /** The `vat_rate` default of `calculate_cost`, in percent. */
  const DefaultVatRate: nat := 10

  /** Accepted form values: daily counts and unit costs, all non-negative. */
  datatype Inputs = Inputs(traffic: nat, storage: nat, trafficUnitCost: nat, storageUnitCost: nat)

  /** The totals one quote shows. */
  datatype Quote = Quote(
    trafficCost: nat,
    storageCost: nat,
    dailyTotal: nat,
    weeklyTotal: nat,
    weeklyTotalWithVat: real)

  /** What each amount of a quote means for the inputs it was computed from. */
  ghost predicate Prices(q: Quote, inp: Inputs, vatRate: nat)
  {
    && q.trafficCost == inp.traffic * inp.trafficUnitCost
    && q.storageCost == inp.storage * inp.storageUnitCost
    && q.dailyTotal == q.trafficCost + q.storageCost
    && q.weeklyTotal == Days * q.dailyTotal
    && q.weeklyTotalWithVat == (q.weeklyTotal * (100 + vatRate)) as real / 100.0
  }

  function ComputeQuote(inp: Inputs, vatRate: nat): (q: Quote)
    ensures Prices(q, inp, vatRate)
    ensures 0.0 <= q.weeklyTotalWithVat
  {
    var trafficCost := inp.traffic * inp.trafficUnitCost;
    var storageCost := inp.storage * inp.storageUnitCost;
    var dailyTotal := trafficCost + storageCost;
    var weeklyTotal := dailyTotal * Days;
    Quote(trafficCost, storageCost, dailyTotal, weeklyTotal,
          (weeklyTotal * (100 + vatRate)) as real / 100.0)
  }

  /** The weekly total is seven days of both categories together. */
  lemma WeeklyTotalFormula(inp: Inputs, vatRate: nat)
    ensures ComputeQuote(inp, vatRate).weeklyTotal
         == 7 * (inp.traffic * inp.trafficUnitCost + inp.storage * inp.storageUnitCost)
  {
  }

  /** At the default rate the VAT-inclusive total is 110% of the weekly total. */
  lemma DefaultVat(inp: Inputs)
    ensures ComputeQuote(inp, DefaultVatRate).weeklyTotalWithVat
         == ComputeQuote(inp, DefaultVatRate).weeklyTotal as real * 11.0 / 10.0
  {
  }

  /**
   * Tax never lowers the total, and it raises it exactly when there is
   * something to tax at a positive rate.
   */
  lemma VatNeverLowers(inp: Inputs, vatRate: nat)
    ensures var q := ComputeQuote(inp, vatRate);
      && q.weeklyTotal as real <= q.weeklyTotalWithVat
      && (q.weeklyTotal as real < q.weeklyTotalWithVat <==> q.weeklyTotal > 0 && vatRate > 0)
  {
    var q := ComputeQuote(inp, vatRate);
    var w := q.weeklyTotal;
    assert w * (100 + vatRate) == 100 * w + w * vatRate;
    if w > 0 && vatRate > 0 {
      assert w * vatRate > 0;
    }
  }

  /**
   * The two categories are priced independently: the totals of a quote are
   * the sums of the traffic-only and the storage-only quotes.
   */
  lemma CategoriesAdd(inp: Inputs, vatRate: nat)
    ensures var q := ComputeQuote(inp, vatRate);
      var t := ComputeQuote(inp.(storage := 0), vatRate);
      var s := ComputeQuote(inp.(traffic := 0), vatRate);
      && q.dailyTotal == t.dailyTotal + s.dailyTotal
      && q.weeklyTotal == t.weeklyTotal + s.weeklyTotal
      && q.weeklyTotalWithVat == t.weeklyTotalWithVat + s.weeklyTotalWithVat
  {
  }

  /** Raising any count or unit cost never lowers any total. */
  lemma {:induction false} Monotone(lo: Inputs, hi: Inputs, vatRate: nat)
    requires lo.traffic <= hi.traffic && lo.storage <= hi.storage
    requires lo.trafficUnitCost <= hi.trafficUnitCost && lo.storageUnitCost <= hi.storageUnitCost
    ensures var a, b := ComputeQuote(lo, vatRate), ComputeQuote(hi, vatRate);
      && a.trafficCost <= b.trafficCost && a.storageCost <= b.storageCost
      && a.dailyTotal <= b.dailyTotal && a.weeklyTotal <= b.weeklyTotal
      && a.weeklyTotalWithVat <= b.weeklyTotalWithVat
  {
    MulMonotone(lo.traffic, hi.traffic, lo.trafficUnitCost, hi.trafficUnitCost);
    MulMonotone(lo.storage, hi.storage, lo.storageUnitCost, hi.storageUnitCost);
    var a, b := ComputeQuote(lo, vatRate), ComputeQuote(hi, vatRate);
    MulMonotone(a.weeklyTotal, b.weeklyTotal, 100 + vatRate, 100 + vatRate);
  }

  lemma MulMonotone(a: nat, a': nat, c: nat, c': nat)
    requires a <= a' && c <= c'
    ensures a * c <= a' * c'
  {
    assert a * c <= a' * c;
  }

  /** With neither traffic nor storage, every total is zero whatever the unit costs. */
  lemma NoLoadCostsNothing(inp: Inputs, vatRate: nat)
    requires inp.traffic == 0 && inp.storage == 0
    ensures var q := ComputeQuote(inp, vatRate);
      q.dailyTotal == 0 && q.weeklyTotal == 0 && q.weeklyTotalWithVat == 0.0
  {
  }

  // ---------------------------------------------------------------------
  // Display rounding of the VAT-inclusive total ({:,.0f})
  // ---------------------------------------------------------------------

  /**
   * The integer nearest to `x`; a tie goes to the even neighbour, the rule
   * Python's `.0f` formatting follows.
   */
  function RoundHalfEven(x: real): (r: int)
    ensures -0.5 <= x - r as real <= 0.5
    ensures x - r as real == 0.5 ==> r % 2 == 0
    ensures x - r as real == -0.5 ==> r % 2 == 0
  {
    var f := x.Floor;
    var frac := x - f as real;
    if frac < 0.5 then f
    else if frac > 0.5 then f + 1
    else if f % 2 == 0 then f
    else f + 1
  }

  /** Rounding an integer changes nothing. */
  lemma RoundWhole(n: int)
    ensures RoundHalfEven(n as real) == n
  {
  }

  /** Rounding never goes below a whole number the value is at least. */
  lemma RoundAtLeast(x: real, n: int)
    requires n as real <= x
    ensures n <= RoundHalfEven(x)
  {
  }

  /** The VAT-inclusive total as displayed: the exact total rounded to whole won. */
  function DisplayedVatTotal(q: Quote): (r: nat)
    requires 0.0 <= q.weeklyTotalWithVat
    ensures -0.5 <= q.weeklyTotalWithVat - r as real <= 0.5
  {
    RoundHalfEven(q.weeklyTotalWithVat)
  }

  /** The displayed VAT-inclusive total is never below the total without VAT. */
  lemma DisplayedVatAtLeastWeekly(inp: Inputs, vatRate: nat)
    ensures ComputeQuote(inp, vatRate).weeklyTotal <= DisplayedVatTotal(ComputeQuote(inp, vatRate))
  {
    var q := ComputeQuote(inp, vatRate);
    VatNeverLowers(inp, vatRate);
    RoundAtLeast(q.weeklyTotalWithVat, q.weeklyTotal);
  }

  /** 100 traffic at 50 won, no storage: 5,000 a day, 35,000 a week, 38,500 with VAT. */
  lemma TrafficOnlyExample()
    ensures var q := ComputeQuote(Inputs(100, 0, 50, 50), DefaultVatRate);
      && q.trafficCost == 5000 && q.storageCost == 0 && q.dailyTotal == 5000
      && q.weeklyTotal == 35000 && q.weeklyTotalWithVat == 38500.0
      && DisplayedVatTotal(q) == 38500
  {
    RoundWhole(38500);
  }
}
