/**
 * What the projection table promises: one row per year in increasing order,
 * each row the closed-form values of its year, cumulative fields that are
 * prefix sums, a guarded ROI, the one-time cost only in year 0, and no rows
 * at all without the implementation.
 */
module ProjectionProperties {
  import opened Assumptions
  import opened ChannelMix
  import opened YearlyFormulas
  import opened Projection

  /** Row y of the table of n years is the expected row of year y. */
  lemma {:induction false} TableAt(a: Assumptions, priceFactor: real, n: nat, y: int)
    requires DivisorsNonZero(a.economiesScaleCostFactor, n)
    requires 0 <= y < n
    ensures |Table(a, priceFactor, n)| == n
    ensures Table(a, priceFactor, n)[y] == ExpectedRow(a, priceFactor, y)
  {
    TableLength(a, priceFactor, n - 1);
    if y < n - 1 {
      TableAt(a, priceFactor, n - 1, y);
    }
  }

  lemma {:induction false} TableLength(a: Assumptions, priceFactor: real, n: nat)
    requires DivisorsNonZero(a.economiesScaleCostFactor, n)
    ensures |Table(a, priceFactor, n)| == n
  {
    if n > 0 {
      TableLength(a, priceFactor, n - 1);
    }
  }

  /** The first m rows of a longer table are the table of m years. */
  lemma {:induction false} TablePrefix(a: Assumptions, priceFactor: real, n: nat, m: nat)
    requires DivisorsNonZero(a.economiesScaleCostFactor, n)
    requires m <= n
    ensures |Table(a, priceFactor, n)| == n
    ensures Table(a, priceFactor, n)[..m] == Table(a, priceFactor, m)
  {
    TableLength(a, priceFactor, n);
    if m < n {
      TablePrefix(a, priceFactor, n - 1, m);
      TableLength(a, priceFactor, n - 1);
      assert Table(a, priceFactor, n)[..n - 1] == Table(a, priceFactor, n - 1);
      assert Table(a, priceFactor, n)[..m] == Table(a, priceFactor, n - 1)[..m];
    }
  }

  /**
   * The table has T+1 rows for years 0..T in increasing order (none for a
   * negative horizon), and none at all without the implementation.
   */
  lemma ProjectionShape(timePeriod: int, a: Assumptions, priceFactor: real, noImplementation: bool)
    requires !noImplementation ==> DivisorsNonZero(a.economiesScaleCostFactor, timePeriod + 1)
    ensures noImplementation ==> FinancialTable(timePeriod, a, priceFactor, noImplementation) == []
    ensures |FinancialTable(timePeriod, a, priceFactor, noImplementation)|
         == if noImplementation || timePeriod < 0 then 0 else timePeriod + 1
    ensures forall y :: 0 <= y < |FinancialTable(timePeriod, a, priceFactor, noImplementation)| ==>
      FinancialTable(timePeriod, a, priceFactor, noImplementation)[y] == ExpectedRow(a, priceFactor, y)
  {
    if !noImplementation && timePeriod >= 0 {
      TableLength(a, priceFactor, timePeriod + 1);
      var rows := Table(a, priceFactor, timePeriod + 1);
      assert FinancialTable(timePeriod, a, priceFactor, noImplementation) == rows;
      forall y | 0 <= y < timePeriod + 1
        ensures rows[y] == ExpectedRow(a, priceFactor, y)
      {
        TableAt(a, priceFactor, timePeriod + 1, y);
      }
    }
  }

  /** The rows of the table carry the years 0..T in increasing order. */
  lemma ProjectionYears(timePeriod: int, a: Assumptions, priceFactor: real)
    requires DivisorsNonZero(a.economiesScaleCostFactor, timePeriod + 1)
    ensures forall y :: 0 <= y < |FinancialTable(timePeriod, a, priceFactor, false)| ==>
      FinancialTable(timePeriod, a, priceFactor, false)[y].year == y
  {
    ProjectionShape(timePeriod, a, priceFactor, false);
    forall y | 0 <= y < |FinancialTable(timePeriod, a, priceFactor, false)|
      ensures FinancialTable(timePeriod, a, priceFactor, false)[y].year == y
    {
      RowYear(a, priceFactor, y);
    }
  }

  lemma RowYear(a: Assumptions, priceFactor: real, year: nat)
    requires DivisorsNonZero(a.economiesScaleCostFactor, year + 1)
    ensures ExpectedRow(a, priceFactor, year).year == year
  {
  }

  /** Any horizon the slider allows gives between 3 and 11 rows. */
  lemma TimeframeRowCount(picked: int, a: Assumptions, priceFactor: real)
    requires TimeframeMin <= picked <= TimeframeMax
    requires DivisorsNonZero(a.economiesScaleCostFactor, ScenarioTimeframe(picked) + 1)
    ensures 3 <= |FinancialTable(ScenarioTimeframe(picked), a, priceFactor, false)| <= 11
  {
    ProjectionShape(ScenarioTimeframe(picked), a, priceFactor, false);
  }

  /** The total contact volume of year y is daily contacts times 365 times (1 + y/100). */
  lemma YearTotalContacts(a: Assumptions, year: int)
    ensures YearContacts(a, year).total == a.avgContactsPhoneWebDaily * 365.0 * (1.0 + year as real / 100.0)
  {
    assert 0.0 + 0.01 * year as real == year as real / 100.0;
  }

  /**
   * The contact and customer columns of a row: contacts grown by y/100 and
   * converted at the flat capped conversion rate, times the price adjustment.
   */
  lemma RowCustomersClosedForm(a: Assumptions, priceFactor: real, year: nat)
    requires DivisorsNonZero(a.economiesScaleCostFactor, year + 1)
    ensures var r := ExpectedRow(a, priceFactor, year);
      var total := a.avgContactsPhoneWebDaily * 365.0 * (1.0 + year as real / 100.0);
      && r.totalContactsM == total / 1000000.0
      && r.newCustomersM == total * Min(a.currentConversion + a.conversionIncrease, a.maxConversionRate) * priceFactor / 1000000.0
  {
    RowCustomers(a, priceFactor, year);
    YearTotalContacts(a, year);
    ConversionRateIgnoresYear(a.currentConversion, a.conversionIncrease, year, a.maxConversionRate);
  }

  lemma RowCustomers(a: Assumptions, priceFactor: real, year: nat)
    requires DivisorsNonZero(a.economiesScaleCostFactor, year + 1)
    ensures ExpectedRow(a, priceFactor, year).totalContactsM == YearContacts(a, year).total / 1000000.0
    ensures ExpectedRow(a, priceFactor, year).newCustomersM
         == NewCustomers(YearContacts(a, year).total, YearConversionRate(a, year), priceFactor) / 1000000.0
  {
  }

  /** The retention column: revenue from the whole customer base under the diminished NPS effect. */
  lemma RowRetentionClosedForm(a: Assumptions, priceFactor: real, year: nat)
    requires DivisorsNonZero(a.economiesScaleCostFactor, year + 1)
    ensures var r := ExpectedRow(a, priceFactor, year);
      r.retentionProfitM == (a.initialHealthPolicies + YearNewCustomers(a, priceFactor, year))
        * (a.npsIncrease * (1.0 - year as real * a.npsDiminishingRate)) * a.companyAvgPolicyPrice / 1000000.0
  {
    RetentionProfitFactored(YearNewCustomers(a, priceFactor, year), a.initialHealthPolicies, a.npsIncrease,
                            a.npsDiminishingRate, year, a.companyAvgPolicyPrice);
  }

  /** The savings column: the total volume, not the chatbot volume, times phone cost times cut, floored. */
  lemma RowSavingsClosedForm(a: Assumptions, priceFactor: real, year: nat)
    requires DivisorsNonZero(a.economiesScaleCostFactor, year + 1)
    ensures var r := ExpectedRow(a, priceFactor, year);
      r.chatbotSavingsM == YearContacts(a, year).total * Max(a.phoneCostPerInteraction * a.chatbotCostCut, 0.0) / 1000000.0
  {
    RowSavings(a, priceFactor, year);
    ChatbotSavingsSimplified(YearContacts(a, year).total, a.phoneCostPerInteraction, a.chatbotCostCut);
  }

  lemma RowSavings(a: Assumptions, priceFactor: real, year: nat)
    requires DivisorsNonZero(a.economiesScaleCostFactor, year + 1)
    ensures ExpectedRow(a, priceFactor, year).chatbotSavingsM == YearChatbotSavings(a, year) / 1000000.0
  {
  }

  /**
   * The cost and net profit columns: cost reduced by economies of scale plus
   * the one-time cost in year 0 only, and net profit as revenue plus savings
   * minus cost.
   */
  lemma RowCostsClosedForm(a: Assumptions, priceFactor: real, year: nat)
    requires DivisorsNonZero(a.economiesScaleCostFactor, year + 1)
    ensures var r := ExpectedRow(a, priceFactor, year);
      && r.costsM == (a.recurringMonthlyCosts * 12.0 / (1.0 + a.economiesScaleCostFactor * year as real)
                      + (if year == 0 then a.firstYearCosts else 0.0)) / 1000000.0
      && r.netProfitM == r.retentionProfitM + r.chatbotSavingsM - r.costsM
  {
  }

  /** The one-time implementation cost is charged in year 0 and in no later year. */
  lemma ImplementationCostOnlyInYearZero(a: Assumptions, year: int)
    requires year >= 0 && ScaleDivisor(a.economiesScaleCostFactor, year) != 0.0
    ensures year == 0 ==> YearCosts(a, year) == a.recurringMonthlyCosts * 12.0 + a.firstYearCosts
    ensures year >= 1 ==>
      YearCosts(a, year) == CalculateCosts(a.recurringMonthlyCosts * 12.0, a.economiesScaleCostFactor, year)
  {
  }

  /** Sum of the cost column of some rows. */
  function SumCostsM(rows: seq<Row>): real
  {
    if rows == [] then 0.0 else SumCostsM(rows[..|rows| - 1]) + rows[|rows| - 1].costsM
  }

  /** Sum of the net profit column of some rows. */
  function SumNetProfitM(rows: seq<Row>): real
  {
    if rows == [] then 0.0 else SumNetProfitM(rows[..|rows| - 1]) + rows[|rows| - 1].netProfitM
  }

  lemma {:induction false} TableColumnSums(a: Assumptions, priceFactor: real, n: nat)
    requires DivisorsNonZero(a.economiesScaleCostFactor, n)
    ensures SumCostsM(Table(a, priceFactor, n)) == CumulativeCosts(a, n) / 1000000.0
    ensures SumNetProfitM(Table(a, priceFactor, n)) == CumulativeProfit(a, priceFactor, n) / 1000000.0
  {
    if n > 0 {
      TableColumnSums(a, priceFactor, n - 1);
      TableLength(a, priceFactor, n);
      var t := Table(a, priceFactor, n);
      assert t[..|t| - 1] == Table(a, priceFactor, n - 1);
    }
  }

  /**
   * The cumulative cost and profit of row y are the sums of the cost and net
   * profit columns over rows 0..y.
   */
  lemma CumulativeArePrefixSums(timePeriod: int, a: Assumptions, priceFactor: real, y: int)
    requires DivisorsNonZero(a.economiesScaleCostFactor, timePeriod + 1)
    requires 0 <= y <= timePeriod
    ensures var rows := FinancialTable(timePeriod, a, priceFactor, false);
      && |rows| == timePeriod + 1
      && rows[y].cumulativeCostsM == SumCostsM(rows[..y + 1])
      && rows[y].cumulativeProfitM == SumNetProfitM(rows[..y + 1])
  {
    TableLength(a, priceFactor, timePeriod + 1);
    TableCumulativesAt(a, priceFactor, timePeriod + 1, y);
    TablePrefix(a, priceFactor, timePeriod + 1, y + 1);
    TableColumnSums(a, priceFactor, y + 1);
  }

  lemma TableCumulativesAt(a: Assumptions, priceFactor: real, n: nat, y: int)
    requires DivisorsNonZero(a.economiesScaleCostFactor, n)
    requires 0 <= y < n
    ensures |Table(a, priceFactor, n)| == n
    ensures Table(a, priceFactor, n)[y].cumulativeCostsM == CumulativeCosts(a, y + 1) / 1000000.0
    ensures Table(a, priceFactor, n)[y].cumulativeProfitM == CumulativeProfit(a, priceFactor, y + 1) / 1000000.0
  {
    TableAt(a, priceFactor, n, y);
    RowCumulatives(a, priceFactor, y);
  }

  lemma RowCumulatives(a: Assumptions, priceFactor: real, year: nat)
    requires DivisorsNonZero(a.economiesScaleCostFactor, year + 1)
    ensures ExpectedRow(a, priceFactor, year).cumulativeCostsM == CumulativeCosts(a, year + 1) / 1000000.0
    ensures ExpectedRow(a, priceFactor, year).cumulativeProfitM == CumulativeProfit(a, priceFactor, year + 1) / 1000000.0
  {
  }

  /**
   * The ROI of a row is cumulative profit over cumulative cost in percent
   * when something has been spent, and 0 otherwise.
   */
  lemma RoiGuarded(a: Assumptions, priceFactor: real, year: nat)
    requires DivisorsNonZero(a.economiesScaleCostFactor, year + 1)
    ensures var r := ExpectedRow(a, priceFactor, year);
      r.roi == if r.cumulativeCostsM > 0.0 then r.cumulativeProfitM / r.cumulativeCostsM * 100.0 else 0.0
  {
    var c := CumulativeCosts(a, year + 1);
    var p := CumulativeProfit(a, priceFactor, year + 1);
    if c > 0.0 {
      RatioUnscaled(p, c, 1000000.0);
    }
  }

  lemma RatioUnscaled(p: real, c: real, m: real)
    requires c != 0.0 && m > 0.0
    ensures (p / m) / (c / m) == p / c
  {
    var q := p / c;
    assert q * c == p;
    assert (q * c / m) == q * (c / m);
  }

  /**
   * Each year's contacts: the total is non-negative and the channel volumes
   * add up to at most the total; with a non-negative drifted chatbot share no
   * channel volume is negative, and the savings are never negative.
   */
  lemma YearContactsWithinTotal(a: Assumptions, year: nat)
    requires a.avgContactsPhoneWebDaily >= 0.0
    ensures var c := YearContacts(a, year);
      c.total >= 0.0 && c.phone + c.web + c.chatbot <= c.total && YearChatbotSavings(a, year) >= 0.0
    ensures var c := YearContacts(a, year);
      a.initialChatbotRate + a.chatbotIncreaseRate * year as real >= 0.0 ==>
        c.phone >= 0.0 && c.web >= 0.0 && c.chatbot >= 0.0
  {
    YearChannelsWithinTotal(a, year);
    YearChannelsNonNegative(a, year);
    YearSavingsNonNegative(a, year);
  }

  lemma YearChannelsWithinTotal(a: Assumptions, year: nat)
    requires a.avgContactsPhoneWebDaily >= 0.0
    ensures var c := YearContacts(a, year);
      c.total >= 0.0 && c.phone + c.web + c.chatbot <= c.total
  {
    NonNegProduct(a.avgContactsPhoneWebDaily, 365.0);
    ContactsWithinTotal(a.avgContactsPhoneWebDaily * 365.0, Channels(a), year, 0.0, 0.01, year as real / 100.0);
  }

  lemma YearChannelsNonNegative(a: Assumptions, year: nat)
    requires a.avgContactsPhoneWebDaily >= 0.0
    ensures var c := YearContacts(a, year);
      a.initialChatbotRate + a.chatbotIncreaseRate * year as real >= 0.0 ==>
        c.phone >= 0.0 && c.web >= 0.0 && c.chatbot >= 0.0
  {
    if a.initialChatbotRate + a.chatbotIncreaseRate * year as real >= 0.0 {
      var c := Channels(a);
      assert c.initialChatbot + c.chatbotIncrease * year as real >= 0.0;
      NonNegProduct(a.avgContactsPhoneWebDaily, 365.0);
      ContactsNonNegative(a.avgContactsPhoneWebDaily * 365.0, c, year, 0.0, 0.01, year as real / 100.0);
    }
  }

  lemma YearSavingsNonNegative(a: Assumptions, year: nat)
    requires a.avgContactsPhoneWebDaily >= 0.0
    ensures YearChatbotSavings(a, year) >= 0.0
  {
    YearChannelsWithinTotal(a, year);
    ChatbotSavingsSimplified(YearContacts(a, year).total, a.phoneCostPerInteraction, a.chatbotCostCut);
  }

  /** A non-negative economies-of-scale factor never makes a divisor zero. */
  lemma NonNegativeFactorDivisors(factor: real, n: int)
    requires factor >= 0.0
    ensures DivisorsNonZero(factor, n)
  {
    forall y | 0 <= y < n ensures ScaleDivisor(factor, y) != 0.0 {
      NonNegProduct(factor, y as real);
    }
  }

  /**
   * The default scenario: in a record built from any admitted inputs no
   * year's cost divisor is zero, its year-0 cost is 80,000 x 12 + 1,030,000 =
   * 1,990,000 and its year-1 cost is 960,000 / 1.03. A positive policy price
   * makes the price ratio defined and positive, and at the default price the
   * price factor is exactly 1, so the projection's preconditions all hold.
   */
  lemma DefaultScenarioCosts(conversion: real, phoneCost: real, chatbotCut: real, policyPrice: real, timePeriod: int)
    requires ConversionInput.Admits(conversion) && ChatbotCutInput.Admits(chatbotCut)
    ensures var a := InputAssumptions(conversion, phoneCost, chatbotCut, policyPrice);
      && DivisorsNonZero(a.economiesScaleCostFactor, timePeriod + 1)
      && YearCosts(a, 0) == 1990000.0
      && YearCosts(a, 1) == 960000.0 / 1.03
    ensures var a := InputAssumptions(conversion, phoneCost, chatbotCut, policyPrice);
      policyPrice > 0.0 ==>
        a.companyAvgPolicyPrice != 0.0 && a.avgMarketPolicyPrice / a.companyAvgPolicyPrice > 0.0
    ensures var a := InputAssumptions(conversion, phoneCost, chatbotCut, policyPrice);
      policyPrice == PolicyPriceDefault ==>
        && IsPriceFactor(a.avgMarketPolicyPrice, a.companyAvgPolicyPrice, 1.0)
        && forall f :: IsPriceFactor(a.avgMarketPolicyPrice, a.companyAvgPolicyPrice, f) ==> f == 1.0
  {
    var a := InputAssumptions(conversion, phoneCost, chatbotCut, policyPrice);
    NonNegativeFactorDivisors(a.economiesScaleCostFactor, timePeriod + 1);
  }

  /**
   * In the default scenario the drifted shares of year 6 are 0.48, 0.47 and
   * 0.35, which add up to 1.3; each is divided by 1.3 and the rescaled shares
   * add up to exactly one. Before year 1 nothing is rescaled.
   */
  lemma DefaultScenarioRescaling(conversion: real, phoneCost: real, chatbotCut: real, policyPrice: real)
    requires ConversionInput.Admits(conversion) && ChatbotCutInput.Admits(chatbotCut)
    ensures var c := Channels(InputAssumptions(conversion, phoneCost, chatbotCut, policyPrice));
      && ClampedShares(c, 6) == Shares(0.48, 0.47, 0.35)
      && ClampedShares(c, 6).Sum() == 1.3
      && RescaledShares(ClampedShares(c, 6)) == Shares(0.48 / 1.3, 0.47 / 1.3, 0.35 / 1.3)
      && RescaledShares(ClampedShares(c, 6)).Sum() == 1.0
      && RescaledShares(ClampedShares(c, 0)) == ClampedShares(c, 0)
  {
    var c := Channels(InputAssumptions(conversion, phoneCost, chatbotCut, policyPrice));
    assert ClampedShares(c, 6) == Shares(0.48, 0.47, 0.35);
    RescaleRule(ClampedShares(c, 6));
  }
}
