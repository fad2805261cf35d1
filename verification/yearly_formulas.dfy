/**
 * The closed-form per-year formulas of the projection: conversion rate,
 * new customers, retention revenue, chatbot savings and the recurring cost
 * under economies of scale.
 */
module YearlyFormulas {
  import opened ChannelMix

  /**
   * The conversion rate for a year. The improvement is divided by
   * `1 + 0 * year`, which is always one, so the rate does not depend on the
   * year (see ConversionRateIgnoresYear).
   */
  function DiminishingConversionRate(baseRate: real, increaseRate: real, year: int, maxRate: real): real
  {
    Min(baseRate + increaseRate / (1.0 + 0.0 * year as real), maxRate)
  }

  /** The conversion rate is the flat increment capped at the maximum, in every year. */
  lemma ConversionRateIgnoresYear(baseRate: real, increaseRate: real, year: int, maxRate: real)
    ensures DiminishingConversionRate(baseRate, increaseRate, year, maxRate) == Min(baseRate + increaseRate, maxRate)
    ensures DiminishingConversionRate(baseRate, increaseRate, year, maxRate) <= maxRate
    ensures baseRate + increaseRate <= maxRate ==>
      DiminishingConversionRate(baseRate, increaseRate, year, maxRate) == baseRate + increaseRate
    ensures DiminishingConversionRate(baseRate, increaseRate, year, maxRate)
         == DiminishingConversionRate(baseRate, increaseRate, 0, maxRate)
  {
    assert 1.0 + 0.0 * year as real == 1.0;
  }

  /**
   * What the price adjustment `(market / own) ^ elasticity` is known to be:
   * defined only for a non-zero own price and a positive price ratio, positive,
   * and exactly one when the two prices agree.
   */
  predicate IsPriceFactor(marketPrice: real, ownPrice: real, factor: real)
  {
    ownPrice != 0.0 && marketPrice / ownPrice > 0.0 && factor > 0.0
    && (marketPrice == ownPrice ==> factor == 1.0)
  }

  /** New customers: contacts times conversion rate times the price adjustment; fractions are kept. */
  function NewCustomers(totalContacts: real, conversionRate: real, priceFactor: real): real
  {
    totalContacts * conversionRate * priceFactor
  }

  /** Non-negative inputs give non-negative customers; a neutral price leaves contacts times rate. */
  lemma NewCustomersBounds(totalContacts: real, conversionRate: real, priceFactor: real)
    ensures totalContacts >= 0.0 && conversionRate >= 0.0 && priceFactor >= 0.0 ==>
      NewCustomers(totalContacts, conversionRate, priceFactor) >= 0.0
    ensures priceFactor == 1.0 ==>
      NewCustomers(totalContacts, conversionRate, priceFactor) == totalContacts * conversionRate
  {
    if totalContacts >= 0.0 && conversionRate >= 0.0 && priceFactor >= 0.0 {
      NonNegProduct(totalContacts, conversionRate);
      NonNegProduct(totalContacts * conversionRate, priceFactor);
    }
  }

  /** Revenue from retained customers; the retention effect is deliberately not floored at zero. */
  function RetentionProfit(newCustomers: real, initialPolicies: real, npsIncrease: real,
                           npsDiminishingRate: real, year: int, policyPrice: real): real
  {
    var retentionEffect := npsIncrease * (1.0 - year as real * npsDiminishingRate);
    (initialPolicies * retentionEffect + newCustomers * retentionEffect) * policyPrice
  }

  /** The revenue is the whole customer base times the diminished NPS effect times the price. */
  lemma RetentionProfitFactored(newCustomers: real, initialPolicies: real, npsIncrease: real,
                                npsDiminishingRate: real, year: int, policyPrice: real)
    ensures RetentionProfit(newCustomers, initialPolicies, npsIncrease, npsDiminishingRate, year, policyPrice)
         == (initialPolicies + newCustomers) * (npsIncrease * (1.0 - year as real * npsDiminishingRate)) * policyPrice
  {
    var e := npsIncrease * (1.0 - year as real * npsDiminishingRate);
    assert initialPolicies * e + newCustomers * e == (initialPolicies + newCustomers) * e;
  }

  /**
   * With a positive customer base, NPS gain and price, the revenue is positive
   * while year times the diminishing rate is below one, zero at one, and
   * negative beyond.
   */
  lemma RetentionProfitSign(newCustomers: real, initialPolicies: real, npsIncrease: real,
                            npsDiminishingRate: real, year: int, policyPrice: real)
    requires initialPolicies + newCustomers > 0.0 && npsIncrease > 0.0 && policyPrice > 0.0
    ensures var r := RetentionProfit(newCustomers, initialPolicies, npsIncrease, npsDiminishingRate, year, policyPrice);
      && (year as real * npsDiminishingRate < 1.0 ==> r > 0.0)
      && (year as real * npsDiminishingRate == 1.0 ==> r == 0.0)
      && (year as real * npsDiminishingRate > 1.0 ==> r < 0.0)
  {
    RetentionProfitFactored(newCustomers, initialPolicies, npsIncrease, npsDiminishingRate, year, policyPrice);
    var base := initialPolicies + newCustomers;
    var d := 1.0 - year as real * npsDiminishingRate;
    SignOfProduct3(base, npsIncrease, d, policyPrice);
  }

  lemma SignOfProduct3(a: real, b: real, d: real, p: real)
    requires a > 0.0 && b > 0.0 && p > 0.0
    ensures d > 0.0 ==> a * (b * d) * p > 0.0
    ensures d == 0.0 ==> a * (b * d) * p == 0.0
    ensures d < 0.0 ==> a * (b * d) * p < 0.0
  {
    if d > 0.0 {
      PositiveProduct(b, d);
      PositiveProduct(a, b * d);
      PositiveProduct(a * (b * d), p);
    } else if d < 0.0 {
      PositiveProduct(b, -d);
      PositiveProduct(a, b * -d);
      PositiveProduct(a * (b * -d), p);
      assert a * (b * d) * p == -(a * (b * -d) * p);
    }
  }

  lemma PositiveProduct(x: real, y: real)
    requires x > 0.0 && y > 0.0
    ensures x * y > 0.0
  {
  }

  /** Total savings: the whole contact volume times the saving per contact, floored at zero. */
  function ChatbotSavings(contactVolume: real, phoneCost: real, chatbotCutCost: real): real
  {
    var savingsPerContact := phoneCost - phoneCost * (1.0 - chatbotCutCost);
    var floored := Max(savingsPerContact, 0.0);
    contactVolume * floored
  }

  /**
   * The saving per contact simplifies to phone cost times the cut, so the
   * savings are the volume times max(phone cost * cut, 0), never negative for
   * a non-negative volume.
   */
  lemma ChatbotSavingsSimplified(contactVolume: real, phoneCost: real, chatbotCutCost: real)
    ensures ChatbotSavings(contactVolume, phoneCost, chatbotCutCost) == contactVolume * Max(phoneCost * chatbotCutCost, 0.0)
    ensures contactVolume >= 0.0 ==> ChatbotSavings(contactVolume, phoneCost, chatbotCutCost) >= 0.0
  {
    assert phoneCost - phoneCost * (1.0 - chatbotCutCost) == phoneCost * chatbotCutCost;
    if contactVolume >= 0.0 {
      NonNegProduct(contactVolume, Max(phoneCost * chatbotCutCost, 0.0));
    }
  }

  /** For a non-negative phone cost and cut the floor never bites. */
  lemma SavingsFloorInactive(contactVolume: real, phoneCost: real, chatbotCutCost: real)
    requires phoneCost >= 0.0 && chatbotCutCost >= 0.0
    ensures ChatbotSavings(contactVolume, phoneCost, chatbotCutCost) == contactVolume * (phoneCost * chatbotCutCost)
  {
    ChatbotSavingsSimplified(contactVolume, phoneCost, chatbotCutCost);
    NonNegProduct(phoneCost, chatbotCutCost);
  }

  /** The divisor of the economies-of-scale formula. */
  function ScaleDivisor(factor: real, year: int): real
  {
    1.0 + factor * year as real
  }

  /** The recurring cost of a year, reduced by economies of scale. */
  function CalculateCosts(yearlyRecurrentCost: real, economiesScaleCostFactor: real, year: int): real
    requires ScaleDivisor(economiesScaleCostFactor, year) != 0.0
  {
    yearlyRecurrentCost / ScaleDivisor(economiesScaleCostFactor, year)
  }

  /** The cost times its divisor gives back the nominal cost; year zero is not reduced. */
  lemma CostsUndoScale(yearlyRecurrentCost: real, economiesScaleCostFactor: real, year: int)
    requires ScaleDivisor(economiesScaleCostFactor, year) != 0.0
    ensures CalculateCosts(yearlyRecurrentCost, economiesScaleCostFactor, year) * ScaleDivisor(economiesScaleCostFactor, year)
         == yearlyRecurrentCost
    ensures year == 0 ==> CalculateCosts(yearlyRecurrentCost, economiesScaleCostFactor, year) == yearlyRecurrentCost
  {
  }

  /** With a positive cost and factor, a later year always costs strictly less. */
  lemma CostsDecreaseOverYears(yearlyRecurrentCost: real, economiesScaleCostFactor: real, y1: int, y2: int)
    requires yearlyRecurrentCost > 0.0 && economiesScaleCostFactor > 0.0 && 0 <= y1 < y2
    ensures ScaleDivisor(economiesScaleCostFactor, y1) > 0.0 && ScaleDivisor(economiesScaleCostFactor, y2) > 0.0
    ensures CalculateCosts(yearlyRecurrentCost, economiesScaleCostFactor, y2)
          < CalculateCosts(yearlyRecurrentCost, economiesScaleCostFactor, y1)
  {
    var f := economiesScaleCostFactor;
    NonNegProduct(f, y1 as real);
    PositiveProduct(f, (y2 - y1) as real);
    assert f * y2 as real == f * y1 as real + f * (y2 - y1) as real;
    QuotientDecreases(yearlyRecurrentCost, ScaleDivisor(f, y1), ScaleDivisor(f, y2));
  }

  lemma QuotientDecreases(a: real, d1: real, d2: real)
    requires a > 0.0 && 0.0 < d1 < d2
    ensures a / d2 < a / d1
  {
    var q1, q2 := a / d1, a / d2;
    assert q1 * d1 == a && q2 * d2 == a;
    assert q2 > 0.0;
    PositiveProduct(q2, d2 - d1);
    assert (q1 - q2) * d1 == q2 * (d2 - d1);
    PositiveFactor(q1 - q2, d1);
  }

  lemma PositiveFactor(x: real, d: real)
    requires d > 0.0 && x * d > 0.0
    ensures x > 0.0
  {
    if x <= 0.0 {
      NonNegProduct(-x, d);
    }
  }
}
