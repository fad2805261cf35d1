/**
 * The assumption record of one scenario: the fixed constants shared by every
 * scenario plus the four values the user picks in the sidebar, each of which
 * comes out of a widget with a documented range and default.
 */
module Assumptions {

  /** The bounds and default of a numeric sidebar widget. */
  datatype InputRange = InputRange(min: real, max: real, default: real)
  {
    predicate Admits(x: real) {
      min <= x <= max
    }
  }

  /** The horizon slider: 2 to 10 years, 6 by default. */
  const TimeframeMin: int := 2
  const TimeframeMax: int := 10
  const TimeframeDefault: int := 6

  /** The current conversion rate input: 0.001 to 0.025, 0.005 by default. */
  const ConversionInput := InputRange(0.001, 0.025, 0.005)
  /** The chatbot cost-cut slider: 0.0 to 0.6, 0.3 by default. */
  const ChatbotCutInput := InputRange(0.0, 0.6, 0.3)
  /** The telephone cost and policy price inputs have a default and no bounds. */
  const PhoneCostDefault: real := 1.5
  const PolicyPriceDefault: real := 60.0

  /** The one-time implementation costs: design, database integration, testing. */
  const DesignCost: real := 680000.0
  const IntegrationCost: real := 250000.0
  const TestingCost: real := 100000.0

  /**
   * One scenario's assumptions. Every key of the source's dictionary is a
   * field, so a key the projection reads can never be missing.
   */
  datatype Assumptions = Assumptions(
    initialHealthPolicies: real,
    avgContactsPhoneWebDaily: real,
    npsIncrease: real,
    npsDiminishingRate: real,
    economiesScaleCostFactor: real,
    firstYearCosts: real,
    recurringMonthlyCosts: real,
    conversionIncrease: real,
    maxConversionRate: real,
    discountRate: real,
    avgMarketPolicyPrice: real,
    priceElasticity: real,
    initialPhoneRate: real,
    initialWebRate: real,
    initialChatbotRate: real,
    phoneDecreaseRate: real,
    webDecreaseRate: real,
    chatbotIncreaseRate: real,
    companyAvgPolicyPrice: real,
    companyYearlyGrowthRate: real,
    currentConversion: real,
    phoneCostPerInteraction: real,
    chatbotCostCut: real)

  /** The horizon the slider hands to the projection. */
  function ScenarioTimeframe(picked: int): (years: int)
    requires TimeframeMin <= picked <= TimeframeMax
    ensures 2 <= years <= 10 && years == picked
  {
    picked
  }

  /**
   * The record built from the four widget values; the conversion rate and the
   * chatbot cost cut come from bounded widgets.
   */
  function InputAssumptions(conversion: real, phoneCost: real, chatbotCut: real, policyPrice: real): (a: Assumptions)
    requires ConversionInput.Admits(conversion)
    requires ChatbotCutInput.Admits(chatbotCut)
    ensures a.currentConversion == conversion && a.phoneCostPerInteraction == phoneCost
    ensures a.chatbotCostCut == chatbotCut && a.companyAvgPolicyPrice == policyPrice
    ensures 0.001 <= a.currentConversion <= 0.025
    ensures 0.0 <= a.chatbotCostCut <= 0.6
    ensures a.firstYearCosts == 1030000.0
    ensures a.initialPhoneRate + a.initialWebRate + a.initialChatbotRate == 1.0
    ensures a.currentConversion + a.conversionIncrease <= a.maxConversionRate
  {
    Assumptions(
      initialHealthPolicies := 2000000.0,
      avgContactsPhoneWebDaily := 3500.0,
      npsIncrease := 0.02,
      npsDiminishingRate := 0.01,
      economiesScaleCostFactor := 0.03,
      firstYearCosts := DesignCost + IntegrationCost + TestingCost,
      recurringMonthlyCosts := 80000.0,
      conversionIncrease := 0.005,
      maxConversionRate := 0.03,
      discountRate := 0.05,
      avgMarketPolicyPrice := 60.0,
      priceElasticity := 0.7,
      initialPhoneRate := 0.6,
      initialWebRate := 1.0 - 0.6 - 0.05,
      initialChatbotRate := 0.05,
      phoneDecreaseRate := 0.02,
      webDecreaseRate := -0.02,
      chatbotIncreaseRate := 0.05,
      companyAvgPolicyPrice := policyPrice,
      companyYearlyGrowthRate := 0.095,
      currentConversion := conversion,
      phoneCostPerInteraction := phoneCost,
      chatbotCostCut := chatbotCut)
  }

  /** The record with its four user-supplied fields blanked out. */
  function FixedPart(a: Assumptions): Assumptions {
    a.(currentConversion := 0.0, phoneCostPerInteraction := 0.0,
       chatbotCostCut := 0.0, companyAvgPolicyPrice := 0.0)
  }

  /** Only the four widget values differ between two scenarios. */
  lemma OnlyDynamicFieldsVary(c1: real, p1: real, k1: real, q1: real, c2: real, p2: real, k2: real, q2: real)
    requires ConversionInput.Admits(c1) && ChatbotCutInput.Admits(k1)
    requires ConversionInput.Admits(c2) && ChatbotCutInput.Admits(k2)
    ensures FixedPart(InputAssumptions(c1, p1, k1, q1)) == FixedPart(InputAssumptions(c2, p2, k2, q2))
    ensures InputAssumptions(c1, p1, k1, q1) == InputAssumptions(c2, p2, k2, q2) <==> c1 == c2 && p1 == p2 && k1 == k2 && q1 == q2
  {
  }

  /** Every widget default lies inside its widget's range. */
  lemma DefaultsAdmitted()
    ensures ConversionInput.Admits(ConversionInput.default)
    ensures ChatbotCutInput.Admits(ChatbotCutInput.default)
    ensures TimeframeMin <= TimeframeDefault <= TimeframeMax
  {
  }
}
