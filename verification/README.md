# ASC 606 financing-component analysis, modelled in Dafny

The system values a prepaid multi-year contract under ASC 606-10-32-15.
It discounts the stated amount of each service period to the payment date.
The difference between the stated total and that present value is the
significant financing component. The present value, which is the
transaction price, is split between a license delivered at once and support
delivered over the years. The financing is then unwound in an amortization
schedule, and the result is posted as journal entries.

The repository does this in three places, and each one is a module here:

- `FinancingAnalyzer` (financing_analyzer.dfy) models the Python class
  `ASC606FinancingAnalyzer`.
  - The class becomes `FinancingAnalyzer.Analyzer`. Its inputs are
    constants and its `results` dictionary is a mutable record of optional
    fields.
  - Each method is proved to do exactly what a pure step function does:
    `PvStep`, `OverrideStep`, `AllocateStep`, `ScheduleStep`, `EntriesStep`
    and `AnalyzeStep`.
  - The exceptions the Python code can raise are `Outcome.Fail`:
    ZeroDivisionError with the division that failed, KeyError, and
    IndexError. The dictionary keeps the keys stored before the failing
    line.
  - Lemmas over the step functions state the accounting properties.
- `AnalyzeRoute` (analyze_route.dfy) models the TypeScript engine
  `calculateASC606` and its two helpers.
  - Each helper is a method that changes no state. Its result is tied to a
    specification function (`AmortizationSchedule`, `RouteEntries`), and
    lemmas are proved about those functions.
- `MonthlyPv` (monthly_pv.dfy) models the 60-month support-PV script.
- `EngineAgreement` (engine_agreement.dfy) proves that the Python and the
  TypeScript engines agree on the present value, the financing component
  and the license revenue.

Shared pieces:

- `Finance` (finance.dfy) holds powers, left-to-right sums, discounting,
  and the cent rounding `Math.round(x * 100) / 100`.
  - Rounding is `Floor(x * 100 + 0.5) / 100`, since `Math.round` rounds
    halves up.
- `Contracts` (contracts.dfy) holds the contract and its periods.
- `Ledger` (ledger.dfy) holds journal entries with debit and credit lines.

Amounts are exact reals; floating-point rounding error is not modelled.
Dates are opaque values that are only carried from input to output.

Points where the code does something other than a reader might expect,
which the model follows:

- The TypeScript significance test is `financingComponent / statedTotal >
  0.05`. It is strict and signed, not a test on the absolute value, so for
  a positive or zero stated total a premium is never significant; for a
  negative stated total the comparison turns round and a present value
  above 95% of it is significant (`AnalyzeRoute.Significance`).
- The Python schedule does not run down to zero. Its last ending balance is
  `cash_received − total_pv + financing_component`
  (`FinancingAnalyzer.FinalEnding`).
- The TypeScript initial entry credits the rounded license, support and
  financing amounts. These add up to about the stated total, not to the
  cash debited, so that entry balances only when the two agree
  (`AnalyzeRoute.InitialEntryBalance`).

## Model

| member | source | states |
|---|---|---|
| Finance.Discount | asc606_analyzer_production.py:96-98 | the discounted amount grown back over `n` periods at `1 + rate` is the amount again |
| Finance.DiscountBounds | asc606_analyzer_production.py:96-98 | a zero rate leaves an amount as it is; a positive rate makes a positive amount due after one or more periods smaller but still positive |
| Finance.PowZero | asc606_analyzer_production.py:97 | the discount factor `(1 + rate) ** n` is zero exactly when `rate = -1` and `n > 0`, the one case that divides by zero |
| Finance.SpreadEvenly | asc606_analyzer_production.py:143 | `n` equal parts of an amount add back up to the amount (`annual_support × N = support_total`) |
| Finance.RoundCents | app/api/analyze/route.ts:67-68 | `Math.round(x*100)/100` is a whole number of cents within half a cent of `x`, with halves rounded up |
| Finance.RoundCentsOfCents | app/api/analyze/route.ts:147-150 | rounding leaves an amount that is already whole cents unchanged |
| Finance.RoundCentsPositive | app/api/analyze/route.ts:200 | a rounded amount is positive exactly when the amount is at least half a cent |
| Finance.RoundedSpread | app/api/analyze/route.ts:141-148 | an amount split into `n` equal parts and rounded to cents adds up to the amount within half a cent per part |
| Finance.SumPositive | app/api/analyze/route.ts:59 | a non-empty sum of positive amounts is positive |
| Finance.SumDifference | asc606_analyzer_production.py:115-117 | summing stated − pv row by row gives the stated total less the PV total |
| Ledger.CreditedAppend | app/api/analyze/route.ts:187-212 | the amounts credited to an account by two runs of entries are those of the first run followed by those of the second |
| Ledger.Posting | asc606_analyzer_production.py:243-249 | an entry with one debit and one credit line for the same amount, which therefore balances |
| FinancingAnalyzer.PvRowAt | asc606_analyzer_production.py:85-112 | the row of the period at 1-based position `i` is discounted over `i` whole years, and its pv plus its financing is its stated amount |
| FinancingAnalyzer.PresentValueBounds | asc606_analyzer_production.py:96-98 | pv = stated at rate 0; a positive rate gives 0 < pv < stated and positive financing for a positive stated amount |
| FinancingAnalyzer.PvAnalysis | asc606_analyzer_production.py:83-112 | one row per period |
| FinancingAnalyzer.PvAnalysisAt | asc606_analyzer_production.py:85-112 | row `j` is period `j` in input order, numbered `j + 1` |
| FinancingAnalyzer.PvTotals | asc606_analyzer_production.py:114-117 | the stated total is the contract's, and total financing = total stated − total pv |
| FinancingAnalyzer.PvStepEffect | asc606_analyzer_production.py:81-125 | the zero-discount-factor failure stores nothing; otherwise the table, the stated total, the total pv (the sum of the `present_value` column) and the financing (stated total − total pv) are stored, and `financing_pct` is stored exactly when the stated total is non-zero (else ZeroDivisionError); no other key changes |
| FinancingAnalyzer.OverrideStep | asc606_analyzer_production.py:129-134 | with an override, total_pv = override and financing = cash − override are stored; the step fails (ZeroDivisionError, `financing_pct` left as it was) exactly when the cash received is 0, and otherwise stores `financing_pct` with `financing_pct × cash = financing × 100`; pv_analysis, total_stated, the allocation, the schedule and the entries are unchanged |
| FinancingAnalyzer.PvStep | asc606_analyzer_production.py:81-125 | calculate_present_value's effect on the results; a passing run has stored a total_pv (its full effect is `PvStepEffect`) |
| FinancingAnalyzer.PriceStepEffect | asc606_analyzer_production.py:129-137 | a stored `total_pv` is kept and nothing changes; otherwise the price (the override, or the total pv) and its financing are stored unless a discount factor is zero, and the step passes exactly when no division is by zero (cash received with an override, every discount factor and the stated total without); a passing step stores `financing_pct` = financing / base × 100 with the cash or the stated total as base; with an override it is `OverrideStep`, otherwise `PvStep`; the allocation, schedule and entries are unchanged |
| FinancingAnalyzer.PriceStep | asc606_analyzer_production.py:127-137 | the price lookup of allocate_transaction_price; a passing run has a total_pv (its full effect is `PriceStepEffect`) |
| FinancingAnalyzer.AllocateStep | asc606_analyzer_production.py:127-143 | whenever allocation succeeds, the license revenue and the price are stored |
| FinancingAnalyzer.AllocateStepEffect | asc606_analyzer_production.py:139-143 | license = price × license_pct, support = price × (1 − license_pct), annual support = support / N; fails exactly when N = 0; no other key changes |
| FinancingAnalyzer.AllocationSplit | asc606_analyzer_production.py:141-143 | license + support total = price, and annual_support × N = support_total |
| FinancingAnalyzer.AllocationTotals | asc606_analyzer_production.py:139-143 | after a successful analysis, license + support = total_pv and annual support × N = support total |
| FinancingAnalyzer.OpeningBalances | asc606_analyzer_production.py:172-178 | the `N` opening balances the step-down loop collects (each is given by `OpeningBalancesAt`) |
| FinancingAnalyzer.OpeningBalancesAt | asc606_analyzer_production.py:172-178 | `N` balances, the `k`-th being the post-license ending less `k` annual supports |
| FinancingAnalyzer.InterestShares | asc606_analyzer_production.py:180-185 | each year's interest is the financing in proportion to its opening balance |
| FinancingAnalyzer.InterestSharesSum | asc606_analyzer_production.py:180-185 | the interest shares add up to the financing component whenever the balances do not sum to zero |
| FinancingAnalyzer.YearRows | asc606_analyzer_production.py:187-203 | one row per period |
| FinancingAnalyzer.YearRowsAt | asc606_analyzer_production.py:187-203 | year row `j` is labelled `Year j+1`, dated at its period's end, opens at the first opening + earlier interest − earlier support, and ends at opening + interest − support |
| FinancingAnalyzer.YearRowsChained | asc606_analyzer_production.py:203 | each year row opens at the previous row's ending |
| FinancingAnalyzer.ScheduleRows | asc606_analyzer_production.py:145-206 | the schedule has exactly N + 1 rows |
| FinancingAnalyzer.ScheduleChaining | asc606_analyzer_production.py:157-203 | row 0 is the license row (opening = cash, interest 0, revenue = license, ending = cash − license); year rows open at the previous ending, end at opening + interest − support, carry the annual support and the period's end date |
| FinancingAnalyzer.ScheduleTotals | asc606_analyzer_production.py:173-203 | total interest = financing; last ending = cash − license − N × support + financing; revenue + interest = license + N × support + financing |
| FinancingAnalyzer.ScheduleStep | asc606_analyzer_production.py:145-206 | build_amortization_schedule's effect on the results; a passing run has stored a schedule (its full effect is `ScheduleStepEffect`) |
| FinancingAnalyzer.ScheduleStepEffect | asc606_analyzer_production.py:147-206 | a missing annual support or financing key is a KeyError; otherwise the schedule is stored exactly when the opening balances do not sum to zero (else ZeroDivisionError), and nothing else changes |
| FinancingAnalyzer.YearEntries | asc606_analyzer_production.py:237-260 | two entries per year row |
| FinancingAnalyzer.YearEntriesAt | asc606_analyzer_production.py:237-260 | year `y` contributes the interest entry then the support entry, numbered consecutively |
| FinancingAnalyzer.JournalEntries | asc606_analyzer_production.py:216-260 | the cash entry, the license entry and the year entries; there are two entries per schedule row |
| FinancingAnalyzer.JournalEntriesProperties | asc606_analyzer_production.py:216-260 | 2 × (N + 1) entries numbered 1, 2, ... without gaps, each one debit and one credit of equal amount; entry 1 is Cash / Contract Liability for the cash; entry 2 credits the license; each year's interest and support entries carry that row's amounts and date |
| FinancingAnalyzer.EntriesStep | asc606_analyzer_production.py:208-263 | generate_journal_entries' effect on the results; a passing run has stored entries (its full effect is `EntriesStepEffect`) |
| FinancingAnalyzer.EntriesStepEffect | asc606_analyzer_production.py:210-263 | an empty schedule is an IndexError; otherwise the entries are stored and nothing else changes |
| FinancingAnalyzer.AnalyzeStep | asc606_analyzer_production.py:265-277 | analyze without the summary: the override or calculate_present_value, then allocation, schedule and entries, stopping at the first failure (its outcome is `AnalyzeOutcome`) |
| FinancingAnalyzer.AnalyzeOutcome | asc606_analyzer_production.py:265-277 | analyze succeeds exactly when no division is by zero; it then stores the price, financing, allocation, schedule and entries, with the percentage over the cash (override) or the stated total |
| FinancingAnalyzer.FinancingIsStatedLessPrice | asc606_analyzer_production.py:114-122 | without an override, financing = total stated − total pv |
| FinancingAnalyzer.FinalEnding | asc606_analyzer_production.py:188-203 | the final ending is cash − total_pv + financing, not zero in general |
| FinancingAnalyzer.RecognizedTotal | asc606_analyzer_production.py:157-203 | revenue plus interest over all rows = total_pv + financing |
| FinancingAnalyzer.ScheduleSettles | asc606_analyzer_production.py:157-203 | for a license and support that make up a price, the last ending is cash − price + financing and revenue plus interest is price + financing |
| FinancingAnalyzer.EntryCount | asc606_analyzer_production.py:218-260 | a successful analysis posts 2 + 2N entries numbered from 1 |
| FinancingAnalyzer.ZeroOverrideIsAbsent | asc606_analyzer_production.py:268-273 | an override of 0 gives the same analysis as no override |
| FinancingAnalyzer.Analyzer.constructor | asc606_analyzer_production.py:45-75 | stores the inputs (defaults 0.06 and 0.20), support_pct = 1 − license_pct, and empty results |
| FinancingAnalyzer.Analyzer.CalculatePresentValue | asc606_analyzer_production.py:81-125 | the loop and the stores do exactly what `PvStep` describes to `results` |
| FinancingAnalyzer.Analyzer.DiscountPeriods | asc606_analyzer_production.py:85-112 | the per-period loop completes exactly when no discount factor is zero, and then builds exactly `PvAnalysis` |
| FinancingAnalyzer.Analyzer.ApplyOverride | asc606_analyzer_production.py:130-134 | updates `results` exactly as `OverrideStep` |
| FinancingAnalyzer.Analyzer.AllocateTransactionPrice | asc606_analyzer_production.py:127-143 | updates `results` exactly as `AllocateStep`, computing the price on demand |
| FinancingAnalyzer.Analyzer.StepDownBalances | asc606_analyzer_production.py:172-178 | the loop produces `OpeningBalances` |
| FinancingAnalyzer.Analyzer.AppendYearRows | asc606_analyzer_production.py:187-203 | the loop appends exactly `YearRows` |
| FinancingAnalyzer.Analyzer.BuildAmortizationSchedule | asc606_analyzer_production.py:145-206 | updates `results` exactly as `ScheduleStep` |
| FinancingAnalyzer.Analyzer.GenerateJournalEntries | asc606_analyzer_production.py:208-263 | the loop with its running `entry_num` updates `results` exactly as `EntriesStep` |
| FinancingAnalyzer.Analyzer.PostYears | asc606_analyzer_production.py:238-260 | the year loop with its running `entry_num` appends exactly `YearEntries` of the year rows, numbered from 3 |
| FinancingAnalyzer.Analyzer.Analyze | asc606_analyzer_production.py:265-277 | updates `results` exactly as `AnalyzeStep` |
| AnalyzeRoute.PeriodPresentValues | app/api/analyze/route.ts:53-57 | one pv per period; pv × (1 + rate)^(index + 1) = stated |
| AnalyzeRoute.PvEntryAt | app/api/analyze/route.ts:61-69 | the shown entry carries period and years = index + 1 and the rounded pv and financing of the unrounded values |
| AnalyzeRoute.PvTable | app/api/analyze/route.ts:53-70 | one shown entry per period |
| AnalyzeRoute.Allocate | app/api/analyze/route.ts:72-81 | financing = stated − totalPV; license + support revenue = totalPV; license + support financing = financing |
| AnalyzeRoute.JsDivide | app/api/analyze/route.ts:74 | JavaScript division of finite numbers: finite exactly when the divisor is non-zero, and then quotient × divisor = dividend; NaN exactly for 0 / 0 |
| AnalyzeRoute.JsGreater | app/api/analyze/route.ts:75 | JavaScript `>` against a constant: +Infinity is above, −Infinity and NaN are not |
| AnalyzeRoute.Significance | app/api/analyze/route.ts:74-75 | for a positive stated total, significant ⇔ pv < 95% of it, so a premium is never significant; for a negative stated total, significant ⇔ pv > 95% of it; a zero stated total is significant ⇔ pv < 0 |
| AnalyzeRoute.ZeroRateNoFinancing | app/api/analyze/route.ts:52-75 | at rate 0 the pv is the stated total, the financing is 0 and never significant |
| AnalyzeRoute.PositiveRateDiscounts | app/api/analyze/route.ts:52-73 | at a positive rate with positive stated amounts, 0 < totalPV < stated total |
| AnalyzeRoute.Carrying | app/api/analyze/route.ts:136-154 | the unrounded carrying value after `k` periods: each period takes off the equal revenue share and adds the interest on the previous value (pinned by `LineAt`, `ZeroRateCarrying` and the loop invariant of `GenerateAmortizationSchedule`) |
| AnalyzeRoute.LineAt | app/api/analyze/route.ts:140-151 | row `i` shows the rounded carrying value before and after period `i`, the rounded equal revenue share and the rounded interest on the carrying value |
| AnalyzeRoute.AmortizationSchedule | app/api/analyze/route.ts:135-157 | one row per period |
| AnalyzeRoute.GenerateAmortizationSchedule | app/api/analyze/route.ts:128-158 | the loop produces `AmortizationSchedule`; the unrounded carrying value is what it carries |
| AnalyzeRoute.ScheduleChains | app/api/analyze/route.ts:147-154 | each shown ending equals the next shown beginning; every row shows the same revenue |
| AnalyzeRoute.ZeroRateCarrying | app/api/analyze/route.ts:140-154 | at rate 0 the carrying value after `k` periods is initial − k × initial / n |
| AnalyzeRoute.ZeroRateSettles | app/api/analyze/route.ts:140-154 | at rate 0 the final carrying value, and the last shown ending, is 0 |
| AnalyzeRoute.RevenueTotal | app/api/analyze/route.ts:141-148 | the shown revenues add up to n rounded shares of initial / n |
| AnalyzeRoute.InitialEntry | app/api/analyze/route.ts:172-184 | entry 1 debits the cash and credits the three rounded amounts |
| AnalyzeRoute.RowEntries | app/api/analyze/route.ts:187-212 | a revenue entry moving the row's shown revenue from Deferred Revenue - License to License Revenue and, only when the shown interest is positive, an interest entry moving it from Contract Liability - Financing to Interest Income; both dated at the row's end, numbered on |
| AnalyzeRoute.RouteEntries | app/api/analyze/route.ts:169-215 | the initial entry, then each row's entries numbered on by the count so far (its count, numbering and postings are stated by `RouteEntriesProperties` and `RouteEntriesPost`) |
| AnalyzeRoute.RouteEntriesProperties | app/api/analyze/route.ts:169-215 | entries numbered 1, 2, ... by position; count = 1 + rows + rows with positive shown interest; every non-initial entry one debit = one credit |
| AnalyzeRoute.RowCredits | app/api/analyze/route.ts:187-212 | one row credits its shown revenue to License Revenue and its shown interest to Interest Income when positive, and nothing else to either |
| AnalyzeRoute.RouteEntriesPost | app/api/analyze/route.ts:169-215 | over all entries, License Revenue is credited with exactly the rows' shown revenues and Interest Income with exactly the positive shown interests, in schedule order |
| AnalyzeRoute.PostedRevenueTotal | app/api/analyze/route.ts:141-148 | the license revenue posted over the whole schedule is n rounded shares of initial / n |
| AnalyzeRoute.InitialEntryBalance | app/api/analyze/route.ts:172-184 | the initial entry balances exactly when cash = sum of the rounded credits, which is within 1.5 cents of the stated total |
| AnalyzeRoute.GenerateJournalEntries | app/api/analyze/route.ts:160-216 | the loop produces `RouteEntries` from the license schedule; `supportSchedule` and `totalPV` do not affect it |
| AnalyzeRoute.CalculateASC606 | app/api/analyze/route.ts:47-126 | totalPV accumulates the unrounded pvs; every shown money figure is the rounding of its unrounded value; the schedules and entries are the specified ones |
| MonthlyPv.MonthlyPresentValue | test_pv_calc.js:9-28 | license PV = stated × license %; 60 × monthly = stated × support %; the 60-iteration loop sums the discounted months; total = license + support; discount = stated − total; opening net = support PV |
| MonthlyPv.DiscountedStream | test_pv_calc.js:13-18 | the running sum of the first `k` monthly payments, each discounted over its month number (pinned by `StreamAtZeroRate`, `StreamBelowStated` and `MonthlyPresentValue`) |
| MonthlyPv.StreamAtZeroRate | test_pv_calc.js:13-18 | at rate 0 the discounted stream of `k` months is `k` × the monthly amount |
| MonthlyPv.StreamBelowStated | test_pv_calc.js:15-18 | at a positive rate each discounted month is below the monthly amount, so 0 < stream < k × monthly |
| MonthlyPv.NoDiscountAtZeroRate | test_pv_calc.js:12-21 | at rate 0 with license % + support % = 1, support PV = stated × support % and total PV = stated |
| MonthlyPv.PositiveDiscount | test_pv_calc.js:16-21 | at a positive rate and positive support share, license PV < total PV < stated: the discount is positive |
| MonthlyPv.SharesAdd | test_pv_calc.js:9-12 | the license and support shares of the stated total make up the total when the percentages add to 1 |
| EngineAgreement.PresentValuesAgree | app/api/analyze/route.ts:53-59 | the TypeScript per-period pvs are the Python `present_value` column, so the totals agree |
| EngineAgreement.AnalysesAgree | app/api/analyze/route.ts:72-78 | without an override both engines have the same price, financing component and license revenue |

## Left out

- The exact-day discounting branch (`use_integer_years=False`) is not modelled. It uses day counts and a real exponent, which the model cannot express.
- The service midpoint and `strptime` parsing are not modelled. Dates are opaque and carried unchanged.
- The annual-to-monthly rate conversion `(1 + r)^(1/12) − 1` in test_pv_calc.js is not modelled, because it has a fractional exponent. The monthly rate is an input to `MonthlyPv.MonthlyPresentValue`.
- The console output of test_pv_calc.js is not modelled.
- The `summary` dictionary built at the end of `analyze` is not modelled. It is formatting only, so `FinancingAnalyzer.AnalyzeStep` stops after the journal entries.
- `print_summary` and the Excel/CSV export functions of the Python class are not modelled. They are console and file I/O.
- The HTTP handlers are not modelled: the Python `api/analyze.py` and the TypeScript `POST`/`OPTIONS`, with their request parsing, defaults and status codes. The PDF-parsing route is not part of this model, and neither is the UI.
- `AnalyzeRoute.CalculateASC606` requires a discount factor `1 + rate` that is not zero. At rate −1, JavaScript divides by zero into Infinity or NaN, and those values are not modelled as amounts. The only JavaScript division by zero that is modelled is the financing percentage (`AnalyzeRoute.JsDivide`).
- Floating-point rounding error is not modelled: amounts are exact reals. As a result, sums in the model are associative, where IEEE doubles are not.
- No file of the code posts a monthly ledger through a contra-liability account such as "Discount on Deferred Revenue"; test_pv_calc.js only prints the opening net liability, which `MonthlyPv.MonthlyPresentValue` states.

## Findings

None of the properties that were stated and proved showed a defect in the code.
