/**
 * The yearly financial projection: for each year 0..T it splits the contact
 * volume, converts contacts into new customers, prices the retention effect
 * and the chatbot savings, charges the recurring (and, in year 0, the
 * one-time) cost, and carries the cumulative cost and profit forward to an
 * ROI. Rows hold money and volumes in millions, as the source's table does.
 */
module Projection {
  import opened Assumptions
  import opened ChannelMix
  import opened YearlyFormulas

  /** One row of the projection table; every field but the year and the ROI is in millions. */
  datatype Row = Row(
    year: int,
    totalContactsM: real,
    phoneContactsM: real,
    webContactsM: real,
    chatbotContactsM: real,
    newCustomersM: real,
    retentionProfitM: real,
    chatbotSavingsM: real,
    costsM: real,
    netProfitM: real,
    cumulativeCostsM: real,
    cumulativeProfitM: real,
    roi: real)

  /** The initial shares and drift rates of a scenario. */
  function Channels(a: Assumptions): ChannelRates
  {
    ChannelRates(a.initialPhoneRate, a.initialWebRate, a.initialChatbotRate,
                 a.phoneDecreaseRate, a.webDecreaseRate, a.chatbotIncreaseRate)
  }

  /** The contacts of a year: growth starts at 0, grows 1% a year and is capped at year / 100. */
  function YearContacts(a: Assumptions, year: int): Contacts
  {
    ContactsFor(a.avgContactsPhoneWebDaily * 365.0, Channels(a), year, 0.0, 0.01, year as real / 100.0)
  }

  function YearConversionRate(a: Assumptions, year: int): real
  {
    DiminishingConversionRate(a.currentConversion, a.conversionIncrease, year, a.maxConversionRate)
  }

  function YearNewCustomers(a: Assumptions, priceFactor: real, year: int): real
  {
    NewCustomers(YearContacts(a, year).total, YearConversionRate(a, year), priceFactor)
  }

  function YearRetentionProfit(a: Assumptions, priceFactor: real, year: int): real
  {
    RetentionProfit(YearNewCustomers(a, priceFactor, year), a.initialHealthPolicies, a.npsIncrease,
                    a.npsDiminishingRate, year, a.companyAvgPolicyPrice)
  }

  function YearChatbotSavings(a: Assumptions, year: int): real
  {
    ChatbotSavings(YearContacts(a, year).total, a.phoneCostPerInteraction, a.chatbotCostCut)
  }

  /** The cost of a year: recurring cost under economies of scale, plus the one-time cost in year 0. */
  function YearCosts(a: Assumptions, year: int): real
    requires ScaleDivisor(a.economiesScaleCostFactor, year) != 0.0
  {
    CalculateCosts(a.recurringMonthlyCosts * 12.0, a.economiesScaleCostFactor, year)
      + (if year == 0 then a.firstYearCosts else 0.0)
  }

  function YearNetProfit(a: Assumptions, priceFactor: real, year: int): real
    requires ScaleDivisor(a.economiesScaleCostFactor, year) != 0.0
  {
    YearRetentionProfit(a, priceFactor, year) + YearChatbotSavings(a, year) - YearCosts(a, year)
  }

  /** No year before n divides the recurring cost by zero. */
  predicate DivisorsNonZero(factor: real, n: int)
  {
    forall y :: 0 <= y < n ==> ScaleDivisor(factor, y) != 0.0
  }

  /** The cost of years 0..n-1. */
  function CumulativeCosts(a: Assumptions, n: nat): real
    requires DivisorsNonZero(a.economiesScaleCostFactor, n)
  {
    if n == 0 then 0.0 else CumulativeCosts(a, n - 1) + YearCosts(a, n - 1)
  }

  /** The net profit of years 0..n-1. */
  function CumulativeProfit(a: Assumptions, priceFactor: real, n: nat): real
    requires DivisorsNonZero(a.economiesScaleCostFactor, n)
  {
    if n == 0 then 0.0 else CumulativeProfit(a, priceFactor, n - 1) + YearNetProfit(a, priceFactor, n - 1)
  }

  /** The ROI policy: profit over cost in percent, and 0 while nothing has been spent. */
  function Roi(cumulativeProfit: real, cumulativeCosts: real): real
  {
    if cumulativeCosts > 0.0 then cumulativeProfit / cumulativeCosts * 100.0 else 0.0
  }

  /** The row the projection emits for a year. */
  function ExpectedRow(a: Assumptions, priceFactor: real, year: nat): Row
    requires DivisorsNonZero(a.economiesScaleCostFactor, year + 1)
  {
    var contacts := YearContacts(a, year);
    var cumulativeCosts := CumulativeCosts(a, year + 1);
    var cumulativeProfit := CumulativeProfit(a, priceFactor, year + 1);
    Row(year,
        contacts.total / 1000000.0,
        contacts.phone / 1000000.0,
        contacts.web / 1000000.0,
        contacts.chatbot / 1000000.0,
        YearNewCustomers(a, priceFactor, year) / 1000000.0,
        YearRetentionProfit(a, priceFactor, year) / 1000000.0,
        YearChatbotSavings(a, year) / 1000000.0,
        YearCosts(a, year) / 1000000.0,
        YearNetProfit(a, priceFactor, year) / 1000000.0,
        cumulativeCosts / 1000000.0,
        cumulativeProfit / 1000000.0,
        Roi(cumulativeProfit, cumulativeCosts))
  }

  /** The rows of years 0..n-1. */
  function Table(a: Assumptions, priceFactor: real, n: nat): seq<Row>
    requires DivisorsNonZero(a.economiesScaleCostFactor, n)
  {
    if n == 0 then [] else Table(a, priceFactor, n - 1) + [ExpectedRow(a, priceFactor, n - 1)]
  }

  /**
   * The whole table for a horizon. Without the implementation the source's
   * loop appends nothing, so the table is empty; a negative horizon gives an
   * empty year range.
   */
  function FinancialTable(timePeriod: int, a: Assumptions, priceFactor: real, noImplementation: bool): seq<Row>
    requires !noImplementation ==> DivisorsNonZero(a.economiesScaleCostFactor, timePeriod + 1)
  {
    if noImplementation || timePeriod < 0 then [] else Table(a, priceFactor, timePeriod + 1)
  }

  /**
   * The projection loop. `priceFactor` is the value of
   * `(market price / own price) ^ elasticity`, which the caller supplies.
   */
  method CalculateFinancials(timePeriod: int, a: Assumptions, priceFactor: real, noImplementation: bool)
    returns (rows: seq<Row>)
    requires !noImplementation && timePeriod >= 0 ==> IsPriceFactor(a.avgMarketPolicyPrice, a.companyAvgPolicyPrice, priceFactor)
    requires !noImplementation ==> DivisorsNonZero(a.economiesScaleCostFactor, timePeriod + 1)
    ensures rows == FinancialTable(timePeriod, a, priceFactor, noImplementation)
  {
    rows := [];
    var cumulativeCosts := 0.0;
    var cumulativeProfit := 0.0;

    var year := 0;
    while year < timePeriod + 1
      invariant 0 <= year
      invariant timePeriod + 1 >= 0 ==> year <= timePeriod + 1
      invariant timePeriod + 1 < 0 ==> year == 0
      invariant noImplementation ==> rows == []
      invariant !noImplementation ==> rows == Table(a, priceFactor, year)
      invariant !noImplementation ==> cumulativeCosts == CumulativeCosts(a, year)
      invariant !noImplementation ==> cumulativeProfit == CumulativeProfit(a, priceFactor, year)
    {
      if noImplementation {
        // The baseline contact breakdown is computed but never recorded.
        var totalContacts := a.avgContactsPhoneWebDaily * 365.0;
        var phoneContacts := totalContacts * a.initialPhoneRate;
        var webContacts := totalContacts * a.initialWebRate;
        var chatbotContacts := 0.0;
      } else {
        var totalContacts, phoneContacts, webContacts, chatbotContacts :=
          CalculateContacts(a.avgContactsPhoneWebDaily * 365.0, Channels(a), year, 0.0, 0.01, year as real / 100.0);
        var conversionRate := DiminishingConversionRate(a.currentConversion, a.conversionIncrease, year, a.maxConversionRate);
        var newCustomers := NewCustomers(totalContacts, conversionRate, priceFactor);
        var retentionProfit := RetentionProfit(newCustomers, a.initialHealthPolicies, a.npsIncrease,
                                               a.npsDiminishingRate, year, a.companyAvgPolicyPrice);
        var chatbotSavings := if !noImplementation
          then ChatbotSavings(totalContacts, a.phoneCostPerInteraction, a.chatbotCostCut)
          else 0.0;

        var costs := CalculateCosts(a.recurringMonthlyCosts * 12.0, a.economiesScaleCostFactor, year);
        if year == 0 {
          costs := costs + a.firstYearCosts;
        }

        var netProfit := retentionProfit + chatbotSavings - costs;
        assert netProfit == YearNetProfit(a, priceFactor, year);
        cumulativeCosts := cumulativeCosts + costs;
        cumulativeProfit := cumulativeProfit + netProfit;

        rows := rows + [Row(year,
                            totalContacts / 1000000.0,
                            phoneContacts / 1000000.0,
                            webContacts / 1000000.0,
                            chatbotContacts / 1000000.0,
                            newCustomers / 1000000.0,
                            retentionProfit / 1000000.0,
                            chatbotSavings / 1000000.0,
                            costs / 1000000.0,
                            netProfit / 1000000.0,
                            cumulativeCosts / 1000000.0,
                            cumulativeProfit / 1000000.0,
                            if cumulativeCosts > 0.0 then cumulativeProfit / cumulativeCosts * 100.0 else 0.0)];
      }
      year := year + 1;
    }
  }
}
