# Chatbot investment projection — a verified model

This project models the yearly financial projection engine of a tool that
evaluates a chatbot for an insurer's customer contacts. The tool compares two
scenarios side by side. The model covers:

- **the assumption record** (`Assumptions`): the fixed business constants of a
  scenario plus the four values the user picks (current conversion rate,
  telephone cost per interaction, chatbot cost cut, own policy price), and the
  ranges and defaults of those inputs and of the horizon slider;
- **the channel mix** (`ChannelMix`): the yearly contact volume grows under a cap.
  The phone, web and chatbot shares drift linearly and are clamped. Shares that
  add up to more than one are divided by their sum. The total is then split by
  the shares;
- **the per-year formulas** (`YearlyFormulas`): conversion rate, new customers,
  retention revenue, chatbot savings, and recurring cost under economies of scale;
- **the projection loop** (`Projection`): years 0..T, the one-time cost in year 0,
  running cumulative cost and profit, an ROI guarded against a zero cost, and
  one row per year in millions;
- **the properties of the table** (`ProjectionProperties`).

Arithmetic is on Dafny `real`, with no floating-point rounding. Python's
two-argument `min`/`max` is `ChannelMix.Min`/`ChannelMix.Max`: each returns its
first argument unless the second is strictly smaller or larger. The price
adjustment `(market price / own price) ** elasticity` has no counterpart on
reals. It is a parameter `priceFactor` of the projection, and
`YearlyFormulas.IsPriceFactor` constrains it:

- the own price is non-zero;
- the price ratio is positive;
- the factor is positive;
- the factor is exactly 1 when the two prices agree.

The sidebar widgets are external input. Their values become parameters, and
their documented ranges become preconditions.

The loop `Projection.CalculateFinancials` is proved equal to the table function
`Projection.FinancialTable`. That function is built from `Projection.ExpectedRow`
and the recursive sums `Projection.CumulativeCosts` and
`Projection.CumulativeProfit`. The lemmas in `ProjectionProperties` prove what
the table promises. `ChannelMix.CalculateContacts` reassigns its rates step by
step, as the source does. It is proved equal to the function
`ChannelMix.ContactsFor`.

Where the source's comments and its behaviour differ, the model follows the behaviour:

- The comment at helper_functions.py:213 says the no-implementation baseline sets
  the chatbot values to zero. The baseline branch computes its contacts
  (helper_functions.py:214-217), but the `rows.append` at helper_functions.py:285
  is only in the `else` branch. The baseline table is therefore empty, and so is
  the model's (`ProjectionProperties.ProjectionShape`).
- The chatbot savings are computed on the *total* contact volume, not on the
  chatbot volume (helper_functions.py:263-267).
- The `1 + 0 * year` divisor of the conversion rate is always one. The rate is
  therefore the same in every year (helper_functions.py:182).
- The retention effect is not floored at zero: its `max(…, 0)` is commented out
  (helper_functions.py:155).
- The record key the savings read as the cost *cut*,
  `avg_chatbot_cost_per_interaction`, is the cut slider's value. It is the
  field `chatbotCostCut`.

## Model

| member | source | states |
|---|---|---|
| Assumptions.ScenarioTimeframe | assumptions_config.py:4-8 | the horizon is the slider value, between 2 and 10 years |
| Assumptions.InputAssumptions | assumptions_config.py:10-84 | the record carries the four inputs in their ranges, a one-time cost of 1,030,000, initial shares summing to 1, and base plus increase conversion within the maximum |
| Assumptions.OnlyDynamicFieldsVary | assumptions_config.py:50-84 | two records from admitted inputs agree on every fixed field, and are equal exactly when the four inputs are |
| Assumptions.DefaultsAdmitted | assumptions_config.py:8-41 | each widget default lies inside its widget's range |
| ChannelMix.AdjustedContactsCapped | helper_functions.py:60-73 | the adjusted volume is the grown or the capped volume, whichever is smaller, so it never exceeds total times (1 + max growth) |
| ChannelMix.ClampedSharesBounded | helper_functions.py:108-111 | the clamped chatbot share is at most 1, web and phone at least 0, each either its drifted value or the clamp |
| ChannelMix.NormalizeRates | helper_functions.py:113-118 | the rates after the in-place division are the rescaled shares |
| ChannelMix.RescaleRule | helper_functions.py:113-118 | shares summing to more than 1 are each divided by the sum and then sum to exactly 1; others are unchanged; the result never sums above 1 |
| ChannelMix.FinalSharesBounded | helper_functions.py:108-118 | after rescaling the chatbot share is still at most 1 and the others still non-negative |
| ChannelMix.CalculateContacts | helper_functions.py:75-125 | the step-by-step computation returns exactly the total and channel split of ContactsFor |
| ChannelMix.ContactsWithinTotal | helper_functions.py:105-125 | for a non-negative base and growth factors the total is non-negative and the channel volumes add up to at most the total; with a non-negative drifted chatbot share every volume is non-negative |
| ChannelMix.SharesDriftMonotonic | helper_functions.py:108-111 | before rescaling, a later year never has a larger clamped phone or web share nor a smaller clamped chatbot share, for non-negative drift rates |
| YearlyFormulas.ConversionRateIgnoresYear | helper_functions.py:172-182 | the rate is min(base + increase, max) in every year, never above the maximum |
| YearlyFormulas.NewCustomersBounds | helper_functions.py:127-140 | new customers are non-negative for non-negative inputs and equal contacts times rate for a neutral price |
| YearlyFormulas.RetentionProfitFactored | helper_functions.py:142-157 | the revenue is (policies + new customers) times nps times (1 - year times rate) times price |
| YearlyFormulas.RetentionProfitSign | helper_functions.py:154-157 | the unclamped revenue is positive while year times rate is below 1, zero at 1 and negative beyond |
| YearlyFormulas.ChatbotSavingsSimplified | helper_functions.py:159-170 | the savings are volume times max(phone cost times cut, 0), non-negative for a non-negative volume |
| YearlyFormulas.SavingsFloorInactive | helper_functions.py:168-169 | for a non-negative phone cost and cut the floor never applies |
| YearlyFormulas.CostsUndoScale | helper_functions.py:184-193 | the cost times 1 + f times year is the nominal cost; year 0 is not reduced |
| YearlyFormulas.CostsDecreaseOverYears | helper_functions.py:184-193 | with a positive cost and factor a later year costs strictly less |
| Projection.CalculateFinancials | helper_functions.py:195-301 | the loop returns exactly the table of FinancialTable: expected rows for years 0..T, or none without the implementation |
| ProjectionProperties.ProjectionShape | helper_functions.py:211-285 | without the implementation the table is empty; otherwise it has T + 1 rows (none for a negative horizon) and row y is the expected row of year y |
| ProjectionProperties.ProjectionYears | helper_functions.py:211-286 | row y carries year y, so the years run 0..T in increasing order |
| ProjectionProperties.TimeframeRowCount | assumptions_config.py:4-8 | the horizon the slider hands over (`ScenarioTimeframe`) gives between 3 and 11 rows |
| ProjectionProperties.YearTotalContacts | helper_functions.py:221-233 | the projected total is daily contacts times 365 times (1 + year / 100) |
| ProjectionProperties.RowCustomersClosedForm | helper_functions.py:221-250 | the total and new-customer columns are the grown volume and volume times min(base + increase, max) times the price factor, in millions |
| ProjectionProperties.RowRetentionClosedForm | helper_functions.py:252-260 | the retention column is the factored revenue of the whole customer base, in millions |
| ProjectionProperties.RowSavingsClosedForm | helper_functions.py:262-267 | the savings column is total volume times max(phone cost times cut, 0), in millions |
| ProjectionProperties.RowCostsClosedForm | helper_functions.py:270-280 | the cost column is the scaled recurring cost plus the one-time cost in year 0 only; net profit is revenue plus savings minus cost |
| ProjectionProperties.ImplementationCostOnlyInYearZero | helper_functions.py:270-277 | year 0 costs the yearly recurring cost plus the one-time cost; later years cost only the scaled recurring cost |
| ProjectionProperties.CumulativeArePrefixSums | helper_functions.py:279-297 | the cumulative cost and profit of row y are the sums of the cost and net profit columns over rows 0..y |
| ProjectionProperties.RoiGuarded | helper_functions.py:298 | the ROI is cumulative profit over cumulative cost times 100 when the cost is positive, else 0 |
| ProjectionProperties.YearContactsWithinTotal | helper_functions.py:221-267 | each year's total is non-negative, the channels add up to at most it, the savings are non-negative, and the channels are non-negative while the drifted chatbot share is |
| ProjectionProperties.NonNegativeFactorDivisors | helper_functions.py:193 | a non-negative economies-of-scale factor never divides by zero |
| ProjectionProperties.DefaultScenarioCosts | assumptions_config.py:43-62 | in a record from admitted inputs no year's cost divisor is zero; year 0 costs 1,990,000 and year 1 costs 960,000 / 1.03; a positive policy price makes the price ratio defined and positive; at the default price a factor of 1 meets the price-factor conditions and is the only one that does |
| ProjectionProperties.DefaultScenarioRescaling | assumptions_config.py:70-76 | the default shares of year 6 are 0.48, 0.47 and 0.35, summing to 1.3, and are rescaled to shares summing to exactly 1; year 0 is not rescaled |

## Left out

- The Streamlit sidebar and page wiring are user interface. The four widget values are parameters, and their ranges are preconditions.
- The charts, `compare_assumptions`, and `calculate_max_y_limit` are presentation through pandas, Altair and matplotlib.
- `logistic_growth`, `calculate_chatbot_adoption_rate` and `calculate_growth_factor` (helper_functions.py:8-58) are left out. They use `np.exp`, and the projection never calls them.
- The real-exponent power `(market / own) ** elasticity` has no counterpart on reals. It is the `priceFactor` parameter, constrained by `IsPriceFactor`. A negative price ratio, which gives a complex number in Python, is excluded by that predicate.
- IEEE-754 rounding is not modelled. For example, `1 - 0.6 - 0.05` is exactly 0.35 here.
- Python raises `ZeroDivisionError` for an own policy price of 0 or a divisor `1 + f * year` of 0. These crashes are preconditions of the projection rather than modelled errors.
- The default arguments of `calculate_contacts` (0.01, 0.01, 0.2) are not modelled: the only caller passes all three explicitly.
- The baseline branch's discarded contact figures are computed in `CalculateFinancials`, but no property is stated about them, since they never reach the table.
- SavingsFloorInactive: requires a non-negative phone cost. The telephone cost input has no bounds, and the floor does apply to a negative cost.
