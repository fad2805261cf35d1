/**
 * Splitting the yearly contact volume among phone, web and chatbot: the total
 * grows under a cap, each channel's share drifts linearly and is clamped, and
 * shares that add up to more than one are rescaled to add up to exactly one.
 */
module ChannelMix {

  /** The two-argument `min` of the source language: the first argument unless the second is strictly smaller. */
  function Min(x: real, y: real): real
  {
    if y < x then y else x
  }

  /** The two-argument `max`: the first argument unless the second is strictly larger. */
  function Max(x: real, y: real): real
  {
    if y > x then y else x
  }

  /** The contact volume after growth, capped by the maximum growth (see AdjustedContactsCapped). */
  function AdjustTotalContacts(totalContacts: real, growthAdjustment: real, maxGrowthValue: real): real
  {
    Min(totalContacts * (1.0 + growthAdjustment), totalContacts * (1.0 + maxGrowthValue))
  }

  /**
   * The adjusted volume is the smaller of the grown and the capped volume, so
   * it never exceeds the volume that the maximum growth allows.
   */
  lemma AdjustedContactsCapped(totalContacts: real, growthAdjustment: real, maxGrowthValue: real)
    ensures var r := AdjustTotalContacts(totalContacts, growthAdjustment, maxGrowthValue);
      && r <= totalContacts * (1.0 + growthAdjustment)
      && r <= totalContacts * (1.0 + maxGrowthValue)
      && (r == totalContacts * (1.0 + growthAdjustment) || r == totalContacts * (1.0 + maxGrowthValue))
  {
  }

  /** The starting share of each channel and how fast it moves per year. */
  datatype ChannelRates = ChannelRates(
    initialPhone: real, initialWeb: real, initialChatbot: real,
    phoneDecrease: real, webDecrease: real, chatbotIncrease: real)

  /** The fraction of the total volume each channel takes. */
  datatype Shares = Shares(phone: real, web: real, chatbot: real)
  {
    function Sum(): real {
      phone + web + chatbot
    }
  }

  /** The yearly contact volume and its split. */
  datatype Contacts = Contacts(total: real, phone: real, web: real, chatbot: real)

  /** Linear drift of each share, the chatbot share capped at one and the others floored at zero. */
  function ClampedShares(c: ChannelRates, year: int): Shares
  {
    Shares(Max(c.initialPhone - c.phoneDecrease * year as real, 0.0),
           Max(c.initialWeb - c.webDecrease * year as real, 0.0),
           Min(c.initialChatbot + c.chatbotIncrease * year as real, 1.0))
  }

  /** Shares that exceed one in sum are divided by that sum; others are kept. */
  function RescaledShares(s: Shares): Shares
  {
    var total := s.Sum();
    if total > 1.0 then
      Shares(s.phone / total, s.web / total, s.chatbot / total)
    else
      s
  }

  lemma SumOfQuotients(p: real, w: real, c: real, t: real)
    requires t != 0.0
    ensures p / t + w / t + c / t == (p + w + c) / t
  {
  }

  /** A total volume split by the given shares. */
  function Split(total: real, s: Shares): Contacts
  {
    Contacts(total, total * s.phone, total * s.web, total * s.chatbot)
  }

  /** The split that the source computes for one year. */
  function ContactsFor(initialContacts: real, c: ChannelRates, year: int,
                       initialGrowthValue: real, growthRate: real, maxGrowthValue: real): Contacts
  {
    Split(AdjustTotalContacts(initialContacts, initialGrowthValue + growthRate * year as real, maxGrowthValue),
          RescaledShares(ClampedShares(c, year)))
  }

  /** The split of one year's contacts, computed step by step as the source does. */
  method CalculateContacts(initialContacts: real, c: ChannelRates, year: int,
                           initialGrowthValue: real, growthRate: real, maxGrowthValue: real)
    returns (total: real, phone: real, web: real, chatbot: real)
    ensures Contacts(total, phone, web, chatbot)
         == ContactsFor(initialContacts, c, year, initialGrowthValue, growthRate, maxGrowthValue)
  {
    total := AdjustTotalContacts(initialContacts, initialGrowthValue + growthRate * year as real, maxGrowthValue);

    var chatbotRate := Min(c.initialChatbot + c.chatbotIncrease * year as real, 1.0);
    var webRate := Max(c.initialWeb - c.webDecrease * year as real, 0.0);
    var phoneRate := Max(c.initialPhone - c.phoneDecrease * year as real, 0.0);

    assert Shares(phoneRate, webRate, chatbotRate) == ClampedShares(c, year);
    phoneRate, webRate, chatbotRate := NormalizeRates(phoneRate, webRate, chatbotRate);

    chatbot := total * chatbotRate;
    web := total * webRate;
    phone := total * phoneRate;
    SplitByRates(total, RescaledShares(ClampedShares(c, year)), phoneRate, webRate, chatbotRate);
  }

  lemma SplitByRates(total: real, s: Shares, phoneRate: real, webRate: real, chatbotRate: real)
    requires s == Shares(phoneRate, webRate, chatbotRate)
    ensures Split(total, s) == Contacts(total, total * phoneRate, total * webRate, total * chatbotRate)
  {
  }

  /** Divides the three rates by their sum, in place, when that sum exceeds one. */
  method NormalizeRates(phoneRate0: real, webRate0: real, chatbotRate0: real)
    returns (phoneRate: real, webRate: real, chatbotRate: real)
    ensures Shares(phoneRate, webRate, chatbotRate) == RescaledShares(Shares(phoneRate0, webRate0, chatbotRate0))
  {
    phoneRate, webRate, chatbotRate := phoneRate0, webRate0, chatbotRate0;
    var totalRate := chatbotRate + webRate + phoneRate;
    if totalRate > 1.0 {
      chatbotRate := chatbotRate / totalRate;
      webRate := webRate / totalRate;
      phoneRate := phoneRate / totalRate;
    }
  }

  /** The clamps: the chatbot share is at most one, the web and phone shares at least zero. */
  lemma ClampedSharesBounded(c: ChannelRates, year: int)
    ensures var s := ClampedShares(c, year);
      && s.chatbot <= 1.0 && s.web >= 0.0 && s.phone >= 0.0
      && (s.chatbot == c.initialChatbot + c.chatbotIncrease * year as real || s.chatbot == 1.0)
      && (s.web == c.initialWeb - c.webDecrease * year as real || s.web == 0.0)
      && (s.phone == c.initialPhone - c.phoneDecrease * year as real || s.phone == 0.0)
  {
  }

  /** After rescaling the chatbot share is still at most one and the others still non-negative. */
  lemma FinalSharesBounded(c: ChannelRates, year: int)
    ensures var s := RescaledShares(ClampedShares(c, year));
      s.chatbot <= 1.0 && s.web >= 0.0 && s.phone >= 0.0
  {
    var k := ClampedShares(c, year);
    ClampedSharesBounded(c, year);
    if k.Sum() > 1.0 {
      var t := k.Sum();
      QuotientBounds(k.chatbot, t);
      QuotientBounds(k.web, t);
      QuotientBounds(k.phone, t);
    }
  }

  lemma QuotientBounds(x: real, t: real)
    requires t > 1.0
    ensures x >= 0.0 ==> 0.0 <= x / t <= x
    ensures x <= 1.0 ==> x / t <= 1.0
  {
    if x >= 0.0 {
      var q := x / t;
      assert q * t == x;
      assert q >= 0.0;
      NonNegProduct(q, t - 1.0);
      assert x == q + q * (t - 1.0);
    }
  }

  /**
   * Rescaling happens exactly when the clamped shares add up to more than one:
   * then every share is divided by that sum and the new shares add up to one;
   * otherwise the shares are left as they are.
   */
  lemma RescaleRule(s: Shares)
    ensures s.Sum() > 1.0 ==>
      var t := s.Sum();
      RescaledShares(s) == Shares(s.phone / t, s.web / t, s.chatbot / t) && RescaledShares(s).Sum() == 1.0
    ensures s.Sum() <= 1.0 ==> RescaledShares(s) == s
    ensures RescaledShares(s).Sum() <= 1.0
  {
    if s.Sum() > 1.0 {
      var t := s.Sum();
      SumOfQuotients(s.phone, s.web, s.chatbot, t);
      DivSelf(t);
    }
  }

  lemma DivSelf(t: real)
    requires t != 0.0
    ensures t / t == 1.0
  {
  }

  /**
   * The channel volumes never add up to more than the total, the total is
   * non-negative when the base and both growth factors are, and each channel
   * volume is non-negative when the drifted chatbot share is.
   */
  lemma {:induction false} ContactsWithinTotal(initialContacts: real, c: ChannelRates, year: int,
                                               initialGrowthValue: real, growthRate: real, maxGrowthValue: real)
    requires initialContacts >= 0.0
    requires 1.0 + initialGrowthValue + growthRate * year as real >= 0.0 && 1.0 + maxGrowthValue >= 0.0
    ensures var r := ContactsFor(initialContacts, c, year, initialGrowthValue, growthRate, maxGrowthValue);
      r.total >= 0.0 && r.phone + r.web + r.chatbot <= r.total
    ensures var r := ContactsFor(initialContacts, c, year, initialGrowthValue, growthRate, maxGrowthValue);
      c.initialChatbot + c.chatbotIncrease * year as real >= 0.0 ==>
        r.phone >= 0.0 && r.web >= 0.0 && r.chatbot >= 0.0
  {
    var g := initialGrowthValue + growthRate * year as real;
    var k := ClampedShares(c, year);
    ClampedSharesBounded(c, year);
    TotalNonNegative(initialContacts, g, maxGrowthValue);
    SplitWithinTotal(AdjustTotalContacts(initialContacts, g, maxGrowthValue), k);
  }

  /** With a non-negative drifted chatbot share no channel volume is negative. */
  lemma ContactsNonNegative(initialContacts: real, c: ChannelRates, year: int,
                            initialGrowthValue: real, growthRate: real, maxGrowthValue: real)
    requires initialContacts >= 0.0
    requires 1.0 + initialGrowthValue + growthRate * year as real >= 0.0 && 1.0 + maxGrowthValue >= 0.0
    requires c.initialChatbot + c.chatbotIncrease * year as real >= 0.0
    ensures var r := ContactsFor(initialContacts, c, year, initialGrowthValue, growthRate, maxGrowthValue);
      r.phone >= 0.0 && r.web >= 0.0 && r.chatbot >= 0.0
  {
    ContactsWithinTotal(initialContacts, c, year, initialGrowthValue, growthRate, maxGrowthValue);
  }

  /** The split of a non-negative total by rescaled clamped shares. */
  lemma SplitWithinTotal(total: real, k: Shares)
    requires total >= 0.0 && k.chatbot <= 1.0 && k.web >= 0.0 && k.phone >= 0.0
    ensures var r := Split(total, RescaledShares(k));
      r.phone + r.web + r.chatbot <= r.total
    ensures var r := Split(total, RescaledShares(k));
      k.chatbot >= 0.0 ==> r.phone >= 0.0 && r.web >= 0.0 && r.chatbot >= 0.0
  {
    var s := RescaledShares(k);
    RescaleRule(k);
    VolumesWithin(total, s);
    if k.chatbot >= 0.0 {
      if k.Sum() > 1.0 {
        QuotientBounds(k.chatbot, k.Sum());
        QuotientBounds(k.web, k.Sum());
        QuotientBounds(k.phone, k.Sum());
      }
      VolumesNonNegative(total, s);
    }
  }

  lemma TotalNonNegative(initialContacts: real, growthAdjustment: real, maxGrowthValue: real)
    requires initialContacts >= 0.0 && 1.0 + growthAdjustment >= 0.0 && 1.0 + maxGrowthValue >= 0.0
    ensures AdjustTotalContacts(initialContacts, growthAdjustment, maxGrowthValue) >= 0.0
  {
    NonNegProduct(initialContacts, 1.0 + growthAdjustment);
    NonNegProduct(initialContacts, 1.0 + maxGrowthValue);
  }

  lemma VolumesWithin(total: real, s: Shares)
    requires total >= 0.0 && s.Sum() <= 1.0
    ensures Split(total, s).phone + Split(total, s).web + Split(total, s).chatbot <= total
  {
    NonNegProduct(total, 1.0 - s.Sum());
    assert total * s.phone + total * s.web + total * s.chatbot == total * s.Sum();
  }

  lemma VolumesNonNegative(total: real, s: Shares)
    requires total >= 0.0 && s.phone >= 0.0 && s.web >= 0.0 && s.chatbot >= 0.0
    ensures Split(total, s).phone >= 0.0 && Split(total, s).web >= 0.0 && Split(total, s).chatbot >= 0.0
  {
    NonNegProduct(total, s.phone);
    NonNegProduct(total, s.web);
    NonNegProduct(total, s.chatbot);
  }

  lemma NonNegProduct(x: real, y: real)
    requires x >= 0.0 && y >= 0.0
    ensures x * y >= 0.0
  {
  }

  /**
   * Drift is monotonic in the year: a later year never has a larger phone or
   * web share (for non-negative decrease rates) nor a smaller chatbot share
   * (for a non-negative increase rate), before rescaling.
   */
  lemma SharesDriftMonotonic(c: ChannelRates, y1: int, y2: int)
    requires y1 <= y2
    ensures c.phoneDecrease >= 0.0 ==> ClampedShares(c, y2).phone <= ClampedShares(c, y1).phone
    ensures c.webDecrease >= 0.0 ==> ClampedShares(c, y2).web <= ClampedShares(c, y1).web
    ensures c.chatbotIncrease >= 0.0 ==> ClampedShares(c, y2).chatbot >= ClampedShares(c, y1).chatbot
  {
    FlooredDriftDecreases(c.initialPhone, c.phoneDecrease, y1, y2);
    FlooredDriftDecreases(c.initialWeb, c.webDecrease, y1, y2);
    CappedDriftIncreases(c.initialChatbot, c.chatbotIncrease, y1, y2);
  }

  lemma FlooredDriftDecreases(initial: real, rate: real, y1: int, y2: int)
    requires y1 <= y2
    ensures rate >= 0.0 ==> Max(initial - rate * y2 as real, 0.0) <= Max(initial - rate * y1 as real, 0.0)
  {
    if rate >= 0.0 {
      NonNegProduct(rate, (y2 - y1) as real);
      assert rate * y2 as real == rate * y1 as real + rate * (y2 - y1) as real;
    }
  }

  lemma CappedDriftIncreases(initial: real, rate: real, y1: int, y2: int)
    requires y1 <= y2
    ensures rate >= 0.0 ==> Min(initial + rate * y2 as real, 1.0) >= Min(initial + rate * y1 as real, 1.0)
  {
    if rate >= 0.0 {
      NonNegProduct(rate, (y2 - y1) as real);
      assert rate * y2 as real == rate * y1 as real + rate * (y2 - y1) as real;
    }
  }
}
