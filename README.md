# investments_calculator — a verified model of the computing core

This project models four computations of the investments calculator:

1. The capital evolution engine `calcular_rentabilidade` of `calculadora.py` (module `Calculadora`).
   - It converts the money inputs and picks the first simulated month.
   - It filters a month-end calendar down to the simulated period.
   - Each month it blends the indicators' latest known values into one percentage return.
   - It fills a ledger array row by row, each row from the balance of the row before it.
2. The parameterised simulation of `src/core/investment_calculator.py` (module `Evolution`).
   - Validation, then the 30-day evolution loop and the period-over-period returns.
   - The total return, the Sharpe index, and the results, each with its error paths.
3. The averaging calculator of `src/core/calculator.py` (module `Averaging`).
   - Validation, the sorted union of dates, the amounts, the per-indicator returns, the equal-weight mean, and the metrics.
   - The `InvestmentCalculator` class, whose `calculate` answers from its cache map when the key is present.
4. The fund's monthly returns from the CVM daily reports, `obter_rentabilidade_fundo_cvm` of `cvm_api.py` (module `FundReturns`).
   - The start-date clamp and the CNPJ cleaning.
   - The year-month enumeration loop.
   - For every CSV of a month's archive holding the fund's rows, the return from the first to the last quota.

Two shared modules support them:
- `Wrappers` holds `Option` and `Result`.
- `Decimal` models the plain decimal forms Python's `float()` accepts, and the replacement of decimal commas by points.

How the model is built:
- Every Python exception is the `Failure` of a `Result`, named after the exception.
- Amounts and rates are `real`.
- Dates are day numbers, except in `FundReturns`, whose loop works on calendar dates, so dates there are (year, month, day) values.
- Work the source does by looping is a `method` with its loop. Each such method is proved equal to a function, and the properties are lemmas about that function.
- The cache is a `map` field of a class.

## Model

| member | source | states |
|---|---|---|
| Decimal.ParseNumber | calculadora.py:53-58 | float() of a string: accepted only when non-empty, with a sign at most in front, at most one point and no comma (None stands for the ValueError) |
| Decimal.NormalizeComma | calculadora.py:124-125 | replace(',', '.'): same length, each comma becomes a point and every other character is kept, no comma remains |
| Decimal.IndexOf | cvm_api.py:91 | the position of the first occurrence of an element (a character, or a requested name): every earlier element differs from it, and the length when it does not occur |
| Decimal.ParseUnsigned | calculadora.py:53-58 | an unsigned number is accepted only when it is non-empty, made of digits and points, with at most one point |
| Decimal.NatToDigits | cvm_api.py:79 | the decimal digits of a year as written in a month label: non-empty and all digits |
| Decimal.DigitsOfNat | cvm_api.py:79 | the digits written for n read back as n |
| Decimal.ParseNatRoundTrip | calculadora.py:53-58 | converting the digits of a whole number gives back that number |
| Decimal.ReadPointDecimal | calculadora.py:53-58 | "whole.frac" converts to whole + frac / 10^len(frac), both as an unsigned number and through float() |
| Decimal.SignedDecimalReading | calculadora.py:53-58 | "-whole.frac" converts to the negation of whole + frac / 10^len(frac), and "+whole.frac" to that value itself |
| Decimal.DecimalCommaReading | calculadora.py:124-125 | "whole,frac" is rejected by float() as it stands and reads as whole + frac / 10^len(frac) once its comma is replaced |
| Calculadora.FirstDates | calculadora.py:73-79 | the collected start dates are exactly the first dates of the indicators that have data |
| Calculadora.MinOf | calculadora.py:85 | min() of a non-empty list is an element and is at most every element |
| Calculadora.SimulationStartChoice | calculadora.py:72-85 | the start is the earliest first date of an indicator with data (one of them, not after any of them); with none it is 5*365 days before the end date |
| Calculadora.StartDate | calculadora.py:73-85 | the loop collecting first dates, then min() or the fallback, computes SimulationStart |
| Calculadora.Timeline | calculadora.py:88 | the month ends kept are exactly the calendar's dates within [start, end]; an increasing calendar gives an increasing timeline |
| Calculadora.LastAtOrBefore | calculadora.py:116-119 | the chosen row is dated at or before the month and every later row of the frame is after it; None exactly when no row is at or before the month |
| Calculadora.LastAtOrBeforeIsLatest | calculadora.py:116-119 | in a date-ordered frame the chosen row has the latest date not after the month |
| Calculadora.Resolve | calculadora.py:106-137 | an indicator with a value column and a row at or before the month offers that latest row's converted value; without either it offers nothing; any value offered is that of a row at or before the month with no later such row |
| Calculadora.NoPastSampleNoValue | calculadora.py:116-118 | an indicator with no row at or before the month contributes nothing |
| Calculadora.ResolvedCount | calculadora.py:105-137 | the number of indicators that resolve a value for the month, never more than are configured; BlendIsDilutedMean divides the resolved sum by the number of configured indicators, and BlendDilution compares the blend with the resolved sum over this count |
| Calculadora.AccumulatedIsScaledSum | calculadora.py:126 | adding each value divided by n adds up to the sum of the values divided by n |
| Calculadora.UnresolvedAddNothing | calculadora.py:118-128 | when no indicator resolves the resolved sum is zero |
| Calculadora.BlendIsDilutedMean | calculadora.py:104-137 | the month's return is the sum of the resolved values over the number of CONFIGURED indicators, and zero when none resolves |
| Calculadora.BlendDilution | calculadora.py:126 | with some indicators unresolved and a positive resolved sum, the blend is strictly below the mean of the resolved values |
| Calculadora.SingleIndicatorBlend | calculadora.py:104-137 | with one indicator the month's return is that indicator's value, or zero when it offers none |
| Calculadora.BlendedReturn | calculadora.py:104-137 | the inner loop over the indicators computes Blend |
| Calculadora.LedgerPrefix | calculadora.py:91-153 | the first k rows of the ledger number k |
| Calculadora.LedgerPrefixStable | calculadora.py:149-153 | writing later rows leaves earlier rows unchanged |
| Calculadora.LedgerRow | calculadora.py:99-153 | row i of the ledger is the month computed for date i from row i-1's balance |
| Calculadora.LedgerOpening | calculadora.py:91-96 | row 0 has Capital = Saldo = the capital, the given withdrawal and contribution, and a zero return |
| Calculadora.LedgerStep | calculadora.py:140-153 | row i opens at row i-1's balance, records the month's blend, the contribution, a zero withdrawal when reinvesting, and closes at balance * (1 + r/100) + contribution - (withdrawal unless reinvesting) |
| Calculadora.MonthStep | calculadora.py:101-153 | one pass of the month loop computes the row MonthRow describes |
| Calculadora.FillLedger | calculadora.py:99-153 | the month loop, run over an array whose rows hold the initial values, leaves the array equal to the Ledger |
| Calculadora.ZeroReturnLedger | calculadora.py:140-146 | with zero returns and withdrawals taken, the balance after n months is capital + n * (contribution - withdrawal) |
| Calculadora.ReinvestIgnoresWithdrawal | calculadora.py:143-150 | when reinvesting, the withdrawal amount changes no Capital or Saldo, and rows after the first record no withdrawal |
| Calculadora.NoIndicatorsFlatLedger | calculadora.py:104-146 | with no indicators every month returns 0, and without flows the balance stays at the capital |
| Calculadora.CalcularRentabilidade | calculadora.py:53-155 | fails exactly when a money input does not convert; otherwise returns a fresh array equal to the Ledger over the timeline from SimulationStart to the end date |
| Calculadora.OnePercentRun | calculadora.py:91-153 | 10000 at 1% per month gives balances 10000, 10100, 10201, 10303.01 |
| Calculadora.OnePercentMonth | calculadora.py:140-146 | in the worked run every month after the first grows the balance by 1% |
| Evolution.ValidarDadosEntrada | src/core/investment_calculator.py:165-192 | passes exactly when capital > 0, start < end, inflation >= 0 and risk-free rate >= 0; otherwise reports a violated check with every earlier check passing |
| Evolution.StepCountClosedForm | src/core/investment_calculator.py:211-223 | for dates at midnight, the loop runs ceil((end - start) / 30) times when start < end, and never otherwise |
| Evolution.ApplyMonth | src/core/investment_calculator.py:214-220 | one pass of the loop adds the contribution, subtracts the withdrawal and grows the capital by a twelfth of the rate |
| Evolution.CalcularEvolucaoMensal | src/core/investment_calculator.py:208-225 | returns one more value than there are steps; value k is the capital after k steps of (capital + contribution - withdrawal) * (1 + rate/12) |
| Evolution.EvolutionWithoutInterest | src/core/investment_calculator.py:214-220 | with a zero rate the capital after k steps is initial + k * (contribution - withdrawal) |
| Evolution.EvolutionWithoutFlows | src/core/investment_calculator.py:214-220 | when contribution equals withdrawal the capital after k steps is initial * (1 + rate/12)^k |
| Evolution.CapitalStaysPositive | src/core/investment_calculator.py:208-225 | positive capital, a non-negative rate and contributions covering withdrawals keep every value positive |
| Evolution.CalcularRentabilidadeMensal | src/core/investment_calculator.py:241-246 | fails with ZeroDivision exactly when a value that has a successor is zero; otherwise returns len - 1 returns, each (e[i+1] - e[i]) / e[i] |
| Evolution.Rebuild | src/core/investment_calculator.py:241-246 | rebuilding from a first value and n returns gives n + 1 values |
| Evolution.PeriodReturnsTail | src/core/investment_calculator.py:241-246 | dropping the first value drops the first return, and that return is the growth from the first to the second value |
| Evolution.RebuildFromReturns | src/core/investment_calculator.py:241-246 | the first value and the period returns give back every value of the evolution |
| Evolution.CompoundedGrowth | src/core/investment_calculator.py:262 | the product of (1 + r) over the returns times the first value is the last value |
| Evolution.RebuildGrowth | src/core/investment_calculator.py:262 | the last value rebuilt from a first value is the first value times the product of (1 + r) |
| Evolution.TotalProfitabilityIsCumulative | src/core/investment_calculator.py:262 | the corrected total return prod(1 + r) - 1 equals last / first - 1 |
| Evolution.TotalProfitabilityAsWrittenIsOffByOne | src/core/investment_calculator.py:262 | the formula as written is the corrected total plus one: 1.1 instead of 0.1 for 100 -> 110, and 1.0 instead of 0 for no period |
| Evolution.IndiceSharpe | src/core/investment_calculator.py:323-326 | 0 when the volatility is 0; otherwise the index times the volatility is the excess return |
| Evolution.SharpeOfConstantReturns | src/core/investment_calculator.py:301-326 | identical returns have zero variance, so zero volatility and a zero Sharpe index |
| Evolution.CalcularRentabilidade | src/core/investment_calculator.py:87-146 | a validation error is wrapped in CalculationError; for dates at midnight, a valid run fails (ZeroDivision) exactly when the capital is zero before some step; on success the evolution is CapitalAfter, final capital is its last value, the returns are its period returns, the total return is final / initial - 1, and the annualised return, volatility and Sharpe index follow from them |
| Averaging.Lookup | src/core/calculator.py:163 | a name is found exactly when it is a key of the dict, and the value found is that key's |
| Averaging.FirstMissing | src/core/calculator.py:162-164 | None exactly when every requested name is a key; otherwise the first requested name, in list order, that is not |
| Averaging.ValidateParameters | src/core/calculator.py:150-164 | passes exactly when both amounts are non-negative, the lists are non-empty and every requested indicator has data; NoIndicators and MissingIndicator are reported only when their check is reached and fails |
| Averaging.InsertSorted | src/core/calculator.py:229-230 | adding a date to a sorted, duplicate-free list keeps it so and adds exactly that date |
| Averaging.GetDates | src/core/calculator.py:226-230 | strictly increasing, and a date is listed exactly when it is in the index of some DataFrame value |
| Averaging.CalculateAmounts | src/core/calculator.py:249-252 | max(num_periods, 1) amounts, amount k being initial + k * monthly |
| Averaging.PctChange | src/core/calculator.py:273 | one change per close |
| Averaging.PctChangeIsPeriodReturns | src/core/calculator.py:273 | the first change is 0 and the rest are the period returns of the closes, from which the closes can be rebuilt |
| Averaging.Returns | src/core/calculator.py:269-274 | one entry per requested DataFrame indicator, no name twice, each holding the percentage changes of its Close column |
| Averaging.ExtendDistinct | src/core/calculator.py:269-274 | adding an entry under a name not yet present keeps the names distinct and adds exactly that name |
| Averaging.PositionExtend | src/core/calculator.py:269-274 | a later request does not move the first request of a name already requested |
| Averaging.PositionNew | src/core/calculator.py:269-274 | a name requested for the first time at the end is first requested there |
| Averaging.ReturnsInRequestOrder | src/core/calculator.py:269-274 | the entries come in first-request order, as dict insertion keeps them |
| Averaging.CalculateTotalReturn | src/core/calculator.py:288-292 | StopIteration with no series, IndexError exactly when a series is shorter than the first; otherwise each period's total is the mean of the series at that period |
| Averaging.MeanWithinRange | src/core/calculator.py:288-292 | each period's total lies between the lowest and highest indicator return of that period |
| Averaging.CalculateMetrics | src/core/calculator.py:310-325 | IndexError with no amounts, ZeroDivisionError exactly when the first amount is 0 or there is no total return; otherwise final = last amount * (1 + sum of returns) and the first amount grown by total_return_pct percent is final |
| Averaging.CalculateResults | src/core/calculator.py:185-214 | fails exactly when the total return or the metrics raise, with StopIteration when no series exists, IndexError when a series is shorter than the first and ZeroDivisionError otherwise; otherwise dates, amounts, returns, total return and metrics are each what their step computes |
| Averaging.GenerateCacheKey | src/core/calculator.py:122-129 | the key is made of both amounts, the requested names in order and the data's key names in order |
| Averaging.CacheKeyUnique | src/core/calculator.py:122-129 | two requests share a key exactly when both amounts, the requested names and the data's key names all agree, so a cache hit belongs to the same amounts and names |
| Averaging.CacheKeyIgnoresValues | src/core/calculator.py:123-128 | two data dicts with the same key names in the same order give the same key, whatever their values |
| Averaging.InvestmentCalculator.constructor | src/core/calculator.py:61-101 | a calculator starts with an empty cache |
| Averaging.InvestmentCalculator.Calculate | src/core/calculator.py:61-101 | on a hit returns the cached results without validating and leaves the cache unchanged; on a miss reports the validation error, or computes, fails exactly when the computation does, and on success stores the results under the key when there is a cache |
| FundReturns.DaysInMonth | cvm_api.py:82-84 | every month has 28 to 31 days |
| FundReturns.ClampStart | cvm_api.py:67-69 | a start before 2024-07-01 becomes 2024-07-01, any other is kept, and the result is never before 2024-07-01 |
| FundReturns.ClampStartIdempotent | cvm_api.py:67-69 | clamping twice is clamping once, and the clamp never moves a date backwards |
| FundReturns.RemoveChar | cvm_api.py:73 | replace(c, '') keeps exactly the characters other than c and never lengthens the text |
| FundReturns.RemoveCharAppend | cvm_api.py:73 | removing a character from a concatenation removes it from each part |
| FundReturns.CleanCnpjDropsSeparators | cvm_api.py:73 | the three chained replaces drop exactly '.', '/' and '-' and keep every other character in order |
| FundReturns.DropSeparatorsLeavesNone | cvm_api.py:73 | the cleaned text has no separator left, and cleaning it again changes nothing |
| FundReturns.CleanCnpjIdempotent | cvm_api.py:73 | cleaning a cleaned CNPJ changes nothing |
| FundReturns.FromIndexOfMonthIndex | cvm_api.py:81-84 | a month is recovered from its running month number |
| FundReturns.MonthIndexOfFromIndex | cvm_api.py:81-84 | every running month number is the number of a real month |
| FundReturns.MonthIndexInjective | cvm_api.py:81-84 | different months have different running month numbers |
| FundReturns.NextMonth | cvm_api.py:81-84 | the next month is a valid month one month number later, December rolling over to January of the next year |
| FundReturns.MonthRangeIndices | cvm_api.py:76-84 | the enumeration holds one month per running number from the start month to the end month, and nothing when the end is before the start |
| FundReturns.FirstDayNotAfter | cvm_api.py:78 | a month numbered no later than the end date's month begins no later than the end date |
| FundReturns.MonthRangeSteps | cvm_api.py:76-84 | empty exactly when the end is before the start; from the start month to the end month, one month per step, every month's first day no later than the end, strictly increasing |
| FundReturns.YearMonths | cvm_api.py:76-84 | the loop fails exactly when it has to step past December 9999; otherwise it lists MonthRange |
| FundReturns.TwoDigits | cvm_api.py:79 | the month is written as two digits reading back as the month |
| FundReturns.SplitDash | cvm_api.py:91 | a split gives the dash-free parts on either side of the string's only dash; with SplitDashSingle, it fails exactly when the string does not hold exactly one dash |
| FundReturns.SplitDashSingle | cvm_api.py:91 | a string with exactly one dash always splits, into the parts before and after that dash |
| FundReturns.LabelRoundTrip | cvm_api.py:79-91 | a 'YYYY-MM' label splits into its year and month digits and reads back as the same month |
| FundReturns.LabelSplits | cvm_api.py:91 | the only dash of a label is the one between the year digits and the month digits |
| FundReturns.IndexOfPrefix | cvm_api.py:91 | the first dash of a + b is past a when a has none |
| FundReturns.LabelsDistinct | cvm_api.py:79 | different months have different labels |
| FundReturns.EarliestIndex | cvm_api.py:116-123 | the first row after sorting by date: its date is the least (unparsed dates last), and no earlier row ties with it |
| FundReturns.LatestIndex | cvm_api.py:116-124 | the last row after sorting by date: its date is the greatest (unparsed dates last), and no later row ties with it |
| FundReturns.QuotaReturn | cvm_api.py:123-125 | finite exactly when both quotas parse and the first is not zero; then the first quota grown by the return percent is the last |
| FundReturns.FundRows | cvm_api.py:109-112 | exactly the rows whose cleaned CNPJ is the fund's |
| FundReturns.CsvEntry | cvm_api.py:104-131 | a CSV adds exactly one result when it is a readable table holding rows of the fund, and none otherwise; the result carries the month's label and the return from the quota of the fund's earliest-dated row to that of its latest-dated row |
| FundReturns.TableEntries | cvm_api.py:98-131 | a run of CSVs adds at most one result each, all labelled with the month |
| FundReturns.ContributingRows | cvm_api.py:109-114 | the fund rows of each CSV holding some, in file order: never empty, and no more of them than CSVs |
| FundReturns.TableEntriesOfContributing | cvm_api.py:98-131 | a run of CSVs gives one result per CSV holding fund rows, in file order, each the first-to-last quota return of those rows |
| FundReturns.FirstMalformed | cvm_api.py:94-134 | every CSV before the first unreadable one is a table |
| FundReturns.MonthEntries | cvm_api.py:90-134 | every result of a month carries that month's label |
| FundReturns.MonthEntriesOfContributing | cvm_api.py:90-134 | a month whose archive cannot be fetched adds nothing; otherwise one result per CSV holding fund rows before the first CSV that raises, in file order, labelled with the month and valued at the first-to-last quota return |
| FundReturns.MonthEntriesAtMostOne | cvm_api.py:98-131 | an archive with at most one CSV adds at most one result for its month |
| FundReturns.LabelCountInMonth | cvm_api.py:90-131 | a month's results carry a label at most once when it is that month's label, and never otherwise |
| FundReturns.CountLabelAppend | cvm_api.py:128-131 | appending results adds up the per-label counts |
| FundReturns.CountLabelAbsent | cvm_api.py:128-131 | a label no result carries has count 0 |
| FundReturns.CollectLabels | cvm_api.py:90-136 | every result is labelled with one of the enumerated months |
| FundReturns.OneResultPerMonth | cvm_api.py:90-131 | with distinct months and at most one CSV per archive, each label appears at most once, and a month not enumerated never appears |
| FundReturns.ProcessMonth | cvm_api.py:90-134 | one pass over a month's archive computes MonthEntries |
| FundReturns.ProcessArchive | cvm_api.py:98-134 | the loop over an archive's CSVs adds the results of the CSVs before the first one that raises |
| FundReturns.ProcessMonths | cvm_api.py:87-136 | the for loop over the months computes Collect |
| FundReturns.MonthRangeMonthsValid | cvm_api.py:76-84 | every enumerated month is a real month of a non-negative year |
| FundReturns.ObterRentabilidadeFundoCvm | cvm_api.py:66-136 | fails exactly when the enumeration from the clamped start steps past December 9999; otherwise returns the results of every enumerated month, in order, for the cleaned CNPJ |

## Left out

- Amounts, rates and returns are exact reals. Float rounding is not modelled, so worked values such as those of Calculadora.OnePercentRun are exact here where the source's floats may differ in the last digits.
- Downloads, ZIP extraction, Streamlit warnings and logging are not modelled. Fetching a month's archive is a function parameter. Its None stands for any exception of the download or the ZIP, which makes the month contribute nothing.
- Decimal.ParseNumber: covers digits with at most one point and an optional sign. It does not model whitespace, exponents, underscores, `inf` and `nan`, which Python's float() also accepts.
- Calculadora.Timeline: pandas `date_range(freq='M')` and the timezone stripping are not modelled. The month ends come from a caller-supplied calendar of day numbers.
- Calculadora.CalcularRentabilidade: NaN values inside a frame are not modelled; a value is a number, a string or nothing. The chained `iloc` assignments are taken to write in place, as intended.
- Evolution.CalcularRentabilidade: `np.std`, `np.sqrt` and the fractional power are not modelled. The square root and the power are function parameters, so the annualised return and the volatility are stated in terms of them.
- Evolution.CalcularRentabilidade: dates are whole day numbers, so times of day are not modelled. A start and an end on the same calendar day at different times pass validation and run one step in the source, then `1 / years` raises ZeroDivisionError with `years` = 0; the model cannot express that run. Evolution.StepCountClosedForm likewise counts whole days, where the source compares full timedeltas, so steps cut by a partial day are not modelled.
- Evolution.CalcularRentabilidade: uses the corrected total return. The as-written formula is kept as `Evolution.TotalProfitabilityAsWritten` (see Findings).
- The `InvestmentCalculator` wrapper class of src/core/investment_calculator.py only delegates to `calcular_rentabilidade`, so it is not modelled separately.
- Averaging.CalculateMetrics: `avg_monthly_return` and `volatility` are computed from the power and square-root parameters, and their values are not characterised further.
- Averaging.PctChange: a change from a zero close is 0 here. pandas gives an infinity, which `fillna(0)` does not replace.
- Averaging.InvestmentCalculator.Calculate: the cache is the key tuple itself, not its hash. Hash collisions, expiry and persistence of the cache utility are not modelled.
- Averaging.CacheKeyUnique: the key is the tuple itself, so it is unique exactly as the source's comment intends; a collision of Python's hash() between different tuples is not modelled.
- Averaging.InvestmentCalculator.Calculate: a cached empty result would be skipped as falsy in the source. That cannot happen, because computed results always hold five fields.
- Averaging.CalculateResults: requires every requested indicator to be in the data, which validation always establishes before it is called.
- Averaging.GetDates: keeps the union sorted as it grows instead of sorting a set at the end. The result is the same sorted list of distinct dates.
- Averaging.Returns: is written as a function over the requested names rather than a loop that fills a dict.
- Averaging.Returns: every DataFrame is assumed to carry a 'Close' column. The KeyError that `data['Close']` raises for one without it, which ends the whole calculation, is not modelled.
- FundReturns.CsvEntry: a CSV whose header lacks `CNPJ_FUNDO_CLASSE` is always treated as unreadable (`Malformed`, which raises and ends the month). The source first promotes the first row to the header and goes on normally when that row names the column; that success path is not modelled.
- FundReturns.CsvEntry: `pd.to_datetime` is modelled only by its outcome, a day number or None. Quota text is read by the same decimal reader as above, with NaN as None.
- FundReturns.EarliestIndex, FundReturns.LatestIndex: rows tied on date are taken in file order, the first of them for the earliest and the last of them for the latest. pandas' default sort does not promise a stable order.
- FundReturns.Label: years are written without zero padding, as `%Y` does for years below 1000 on Linux.
- FundReturns.OneResultPerMonth: proved only when every archive holds at most one CSV. An archive with several CSVs holding the fund's rows gives one result per CSV, as the source does.

## Findings

| source | as written | input that shows it | evidently intended | confidence | as-written member | corrected member |
|---|---|---|---|---|---|---|
| src/core/investment_calculator.py:262 | `(1 + prod(1 + r)) - 1`, which is just the product of (1 + r) | evolution [100, 110] gives returns [0.1], and total 1.1 (110%) instead of 0.1; no period gives 1.0 instead of 0 | `prod(1 + r) - 1`, the cumulative growth last / first - 1 | not executed | Evolution.TotalProfitabilityAsWrittenIsOffByOne | Evolution.TotalProfitabilityIsCumulative |
