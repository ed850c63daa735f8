# Investment automation: a verified model of the deterministic core

The investment-automation system asks several LLM "analysts" for reports on a
stock. The analysts are a value hunter, a growth analyzer, a risk examiner and
a chief investment officer (CIO). Around those calls sits a deterministic core,
and this project models that core in Dafny:

- **Report extractors.** `get_decision_summary`, `get_analysis_summary`,
  `get_growth_summary`, `get_risk_summary` and `extract_decision_data` turn a
  free-text report into a record of typed fields.
- **Finance rules.** These are CAGR, revenue growth, PEG and margins; the
  two-stage DCF with dynamic growth, WACC, P/E, P/FCF and margin of safety; the
  CIO composite score and position size; the risk-adjusted position size; and
  the growth scenario probabilities.
- **The data fetcher's computations.** These build the five-year statement rows
  and the metric rows, raise the red flags, de-duplicate news and lay out the
  news section.
- **Context builders.** These are the risk examiner's context
  (`format_risk_context`) and the CIO's context (`format_cio_context`).
- **The performance tracker.** It is an append-only decision log with filters,
  a summary and a second parser of the reports.
- **The number formatters.**

The extractors come in two shapes, both in `extraction.dfy`:

- **Fallback chain.** A priority-ordered chain of patterns where the first
  match wins. Each regular expression is an abstract matcher, a
  `string -> Option<capture>` value supplied by the caller.
- **Line scan.** Each line is offered to every field that is still falsy, and
  the first truthy value latches.

Keyword tests with `in` and `upper()` are modelled concretely on ASCII text.
Amounts are `real`. Number formatting is an abstract `Format` parameter, and the
decision log is a `seq` held by a class.

| file | module | models |
|---|---|---|
| text.dfy | Text | `Option`, Python values, and string helpers (`in`, `upper`, `split`, `strip`, slicing, padding) |
| records.dfy | Records | dictionaries read with `get` and `or 0` |
| extraction.dfy | Extraction | the fallback chain and the latching line scan |
| cio_synthesizer.dfy | CioSynthesizer | agents/cio_synthesizer.py |
| value_hunter.dfy | ValueHunter | agents/value_hunter.py |
| growth_analyzer.dfy | GrowthAnalyzer | agents/growth_analyzer.py |
| risk_examiner.dfy | RiskExaminer | agents/risk_examiner.py |
| financial_calculator.dfy | FinancialCalculator | data/financial_calculator.py |
| dcf_calculator.dfy | DcfCalculator | valuation/dcf_calculator.py |
| formatters.dfy | Formatters | utils/formatters.py |
| fetcher_statements.dfy | FetcherStatements | row construction in `_get_*_5y` of data/fetcher_v3.py |
| fetcher_metrics.dfy | FetcherMetrics | `_calculate_metrics_5y` and the `_calc_*` helpers |
| fetcher_quality.dfy | FetcherQuality | `_calculate_quality_indicators` |
| fetcher_news.dfy | FetcherNews | `_deduplicate_news` and `_format_news` |
| risk_context.dfy | RiskContext | agents/risk_examiner_prompts.py `format_risk_context` |
| cio_context.dfy | CioContext | agents/cio_prompts.py `format_cio_context` |
| performance_tracker.dfy | PerformanceTracking | utils/performance_tracker.py |

**Behaviour the model keeps as written.** These are places where one part of
the system does not fit another. The model follows the code:

- **Equity key.** The fetcher stores equity under `total_equity`, but the risk
  context reads `shareholders_equity`. Equity is therefore always shown as
  0.0B (`RiskContext.FetcherEquityShownAsZero`).
- **Red flags.** The risk context reads `data['red_flags']`, a key the fetcher
  never produces. Its flags sit under `quality_indicators`. The section is
  modelled as an optional input.
- **Financials.** The CIO context reads `data['financials']`, another key the
  fetcher never produces. With no years the table is omitted
  (`CioContext.TableOmittedWithoutYears`).
- **CIO decision dict.** In `extract_decision_data` a non-empty CIO `decision`
  dict takes the place of the report text. The `in` tests then look at the
  dict's keys. For the dict `get_decision_summary` returns, no CIO field is
  parsed (`PerformanceTracking.CioDecisionDictParsesNothing`).
- **Risk summary keys.** The CIO context reads `business_model_risk_score`
  and `bear_downside` from the risk summary. `get_risk_summary` produces
  `business_model_risk` and `bear_case_downside`, so the context always
  prints 'N/A' and +0.0 for these two lines.

## Model

| member | source | states |
|---|---|---|
| Records.Get | agents/risk_examiner_prompts.py:637-642 | `d.get(key, default)` gives the stored value exactly when the key is present, and the default otherwise |
| Records.Num | agents/risk_examiner_prompts.py:661-665 | a numeric entry is read as its value and a missing key as 0 |
| Records.OrZero | agents/cio_prompts.py:464-500 | `d.get(key) or 0` keeps the value exactly when it is truthy; None, 0, '' and a missing key all become 0 |
| Extraction.FirstSomeEarliest | agents/value_hunter.py:264-268 | when candidate k is the first present one, it decides the result whatever follows |
| Extraction.FirstSomeCases | agents/value_hunter.py:264-268 | nothing is found iff every candidate fails; a found value is some candidate's, and every earlier candidate failed |
| Extraction.SearchPatterns | agents/value_hunter.py:264-268 | the `for pattern … break` loop returns the first matching pattern's capture, and None iff no pattern matches |
| Extraction.LatchField | agents/growth_analyzer.py:114-129 | a truthy field is never overwritten; a falsy field takes the line's candidate when there is one |
| Extraction.LatchAllNoTruthy | agents/growth_analyzer.py:110-216 | with no truthy candidate, the field ends as the last present candidate (a parsed 0 does not latch) and stays falsy |
| Extraction.LatchAllFirstTruthy | agents/growth_analyzer.py:110-216 | the first line whose candidate is truthy decides the field, whatever later lines hold |
| Extraction.LatchAllFromCands | agents/growth_analyzer.py:110-216 | whatever the field ends as is the candidate of one of the lines |
| CioSynthesizer.Scope | agents/cio_synthesizer.py:125-132 | searches use the executive summary when there is one, otherwise the whole report |
| CioSynthesizer.ExtractRecommendation | agents/cio_synthesizer.py:134-174 | the recommendation is the upper-cased first success of the chain (table row, plain text, Rating line, marker fallback), and is otherwise unchanged |
| CioSynthesizer.ExtractFirstBlock | agents/cio_synthesizer.py:193-302 | position size, expected return (probability-weighted, table, then range midpoint), composite score (x/10 stored as 10x, y/100 as y), fair value and upside each come from their first matching format |
| CioSynthesizer.ExtractSecondBlockScores | agents/cio_synthesizer.py:305-342 | the expected-return and composite fallbacks run only while the field is 0.0, and the composite is re-read raw from the first block's match |
| CioSynthesizer.ExtractSecondBlockFairValue | agents/cio_synthesizer.py:344-381 | a fair-value range (midpoint), a single value or "around $x" replaces the first block's fair value; a match replaces the upside |
| CioSynthesizer.ExtractScenarios | agents/cio_synthesizer.py:383-438 | scenario returns, probabilities and the upside/downside ratio each come from their own pattern, else the default |
| CioSynthesizer.ExtractExecutionPlan | agents/cio_synthesizer.py:440-522 | the entry range, stop loss and target price (the high end of a range) come from the first of three formats that matches |
| CioSynthesizer.DecisionSummary | agents/cio_synthesizer.py:93-527 | every field of the returned record is its chain's result or its default; the method never fails |
| CioSynthesizer.NothingMatchedKeepsDefaults | agents/cio_synthesizer.py:103-122 | a report that no pattern matches yields 'N/A', 0 and 0.0 in every field, the scenario returns, probabilities and ratio included |
| CioSynthesizer.RecommendationClosed | agents/cio_synthesizer.py:137-172 | the recommendation is 'N/A' or an upper-cased word of the table pattern |
| CioSynthesizer.RecommendationPriority | agents/cio_synthesizer.py:137-172 | a table row wins over every later format, and the marker fallback applies only when no pattern matched |
| CioSynthesizer.ExpectedRangeMidpoint | agents/cio_synthesizer.py:229-236 | a "+a% to +b%" range, with no single-valued match before it, yields (a+b)/2 |
| CioSynthesizer.CompositeRescaleUndone | agents/cio_synthesizer.py:242-342 | "COMPOSITE SCORE: x/10" is first stored as 10x, and the second block re-assigns the raw x |
| CioSynthesizer.CompositeTableKept | agents/cio_synthesizer.py:251-342 | a non-zero "y/100" table score survives both blocks unchanged |
| CioSynthesizer.FairValueRangeWins | agents/cio_synthesizer.py:344-354 | the second block's fair-value range overrides the first block, and its midpoint is kept |
| CioSynthesizer.CompositeScore | agents/cio_synthesizer.py:529-561 | with scores in [0, 10] and non-negative weights summing to 1, the composite lies in [0, 10] |
| CioSynthesizer.CompositeScoreRiskAntitone | agents/cio_synthesizer.py:552-561 | a higher risk score never raises the composite |
| CioSynthesizer.PositionSize | agents/cio_synthesizer.py:563-605 | the position is always in [0, 8]: the raw product when it is inside, 0 below and 8 above |
| CioSynthesizer.NegativeUpsideNoPosition | agents/cio_synthesizer.py:584-605 | with a positive base and conviction and risk below 20, a negative upside sizes the position at 0 |
| ValueHunter.NormaliseMoat | agents/value_hunter.py:279-287 | a normalised moat is always one of Strong, Medium, Weak, None |
| ValueHunter.NormaliseRecommendation | agents/value_hunter.py:303-313 | a normalised recommendation is always one of STRONG BUY, BUY, HOLD, REDUCE, SELL |
| ValueHunter.MoatStrong | agents/value_hunter.py:279-281 | every capture that upper-cases to STRONG is 'Strong' |
| ValueHunter.MoatModerate | agents/value_hunter.py:282-283 | every capture that upper-cases to MODERATE is 'Medium' |
| ValueHunter.MoatMedium | agents/value_hunter.py:282-283 | every capture that upper-cases to MEDIUM is 'Medium' |
| ValueHunter.MoatWeak | agents/value_hunter.py:284-285 | every capture that upper-cases to WEAK is 'Weak' |
| ValueHunter.MoatNone | agents/value_hunter.py:286-287 | every capture that upper-cases to NONE is 'None' |
| ValueHunter.MoatTable | agents/value_hunter.py:279-287 | for every capture, in any letter case: STRONG is 'Strong', MEDIUM or MODERATE is 'Medium', WEAK is 'Weak', NONE is 'None' |
| ValueHunter.RecommendationStrongBuy | agents/value_hunter.py:303-305 | every capture that upper-cases to STRONG BUY is STRONG BUY, not BUY |
| ValueHunter.RecommendationBuy | agents/value_hunter.py:306-307 | every capture that upper-cases to BUY is BUY |
| ValueHunter.RecommendationHold | agents/value_hunter.py:308-309 | every capture that upper-cases to HOLD is HOLD |
| ValueHunter.RecommendationReduce | agents/value_hunter.py:310-311 | every capture that upper-cases to REDUCE is REDUCE |
| ValueHunter.RecommendationAvoid | agents/value_hunter.py:310-311 | every capture that upper-cases to AVOID is reported as REDUCE |
| ValueHunter.RecommendationSell | agents/value_hunter.py:312-313 | every capture that upper-cases to SELL is SELL |
| ValueHunter.RecommendationTable | agents/value_hunter.py:303-313 | for every capture, in any letter case: AVOID becomes REDUCE, and STRONG BUY, BUY, HOLD, REDUCE and SELL keep their upper-cased name |
| ValueHunter.AnalysisSummary | agents/value_hunter.py:230-368 | each field is the first capture of its pattern list, normalised; a group-less recommendation match aborts the shared try block and leaves every later field None |
| ValueHunter.LatestFcf | agents/value_hunter.py:160-174 | None without cash-flow rows; otherwise the latest FCF, recomputed as OCF − \|capex\| when it is 0 and both are non-zero |
| ValueHunter.SupplementaryValuation | agents/value_hunter.py:127-228 | DCF only for a positive latest FCF: the DCF of that FCF at the growth rate and the WACC, with 3% terminal growth and 5 years, its first projection FCF·(1+g), its total the stage-1 plus discounted terminal value, and a per-share value iff shares > 0; P/E only with some EPS, with P/E 20 as the fallback; P/FCF only with a positive FCF and positive shares; otherwise the error entries |
| GrowthAnalyzer.RecommendationCand | agents/growth_analyzer.py:146-169 | a line only ever offers one of the five growth recommendations |
| GrowthAnalyzer.ScanLine | agents/growth_analyzer.py:112-216 | the loop body offers the line to each field that is still falsy |
| GrowthAnalyzer.GetGrowthSummary | agents/growth_analyzer.py:83-246 | the line scan over `split('\n')`, then the multi-line fallbacks for bull, base and bear returns that are still falsy |
| GrowthAnalyzer.ScanFields | agents/growth_analyzer.py:110-216 | each field is the "first truthy line wins" fold of its own per-line candidates; the fields do not interact |
| GrowthAnalyzer.RecommendationClosed | agents/growth_analyzer.py:146-169 | the recommendation always ends as None or one of the five growth words |
| GrowthAnalyzer.TableRowStrongBuyFirst | agents/growth_analyzer.py:148-150 | in a table row, a strong buy outranks every other keyword |
| GrowthAnalyzer.TableRowCautionBeforeAvoidBeforeHold | agents/growth_analyzer.py:153-158 | in a table row without a buy, CAUTION outranks AVOID, which outranks HOLD |
| GrowthAnalyzer.NothingMatchedKeepsDefaults | agents/growth_analyzer.py:94-105 | a report where no line and no fallback matches keeps all ten fields None |
| GrowthAnalyzer.SilentScan | agents/growth_analyzer.py:110-216 | lines that offer nothing leave the record at its defaults |
| GrowthAnalyzer.ScenarioProbabilities | agents/growth_analyzer.py:248-286 | the bull, base and bear probabilities sum to 1, each lies strictly between 0 and 1, and base is the largest |
| GrowthAnalyzer.ScenarioProbabilitiesByMean | agents/growth_analyzer.py:273-286 | the band depends only on the mean of the two scores; a higher mean never raises the bear weight, and never lowers the base or the bull weight |
| RiskExaminer.RedFlagsCand | agents/risk_examiner.py:124-128 | a red-flag count is accepted from a line only when it is at most 20 |
| RiskExaminer.RiskLevel | agents/risk_examiner.py:142-155 | the first of LOW, MEDIUM, HIGH, MODERATE in the line, capitalised; none iff no level word occurs |
| RiskExaminer.OverallScoreCand | agents/risk_examiner.py:158-167 | a score on a "/100" line is divided by 10; otherwise it is taken as read |
| RiskExaminer.RiskRatingCand | agents/risk_examiner.py:170-188 | the rating is always one of the four rating phrases |
| RiskExaminer.BearDownsideCand | agents/risk_examiner.py:198-202 | only a negative percentage is captured as the bear-case downside |
| RiskExaminer.RecommendationCand | agents/risk_examiner.py:212-219 | the recommendation is always REDUCE, BUY or HOLD |
| RiskExaminer.ScanLine | agents/risk_examiner.py:120-219 | the loop body offers the line to each field that is still falsy |
| RiskExaminer.GetRiskSummary | agents/risk_examiner.py:93-240 | the line scan, then the whole-report fallbacks for a falsy red-flag count (without the limit of 20) and a falsy ratio |
| RiskExaminer.ScanFields | agents/risk_examiner.py:120-219 | each field is the "first truthy line wins" fold of its own per-line candidates |
| RiskExaminer.ScanBounds | agents/risk_examiner.py:120-219 | after the scan, the count is ≤ 20, the downside is ≤ 0, and the levels, rating and recommendation come from their closed sets |
| RiskExaminer.OverallScoreOutOfHundred | agents/risk_examiner.py:158-167 | a "65/100" line is read as 6.5 |
| RiskExaminer.LevelListOrder | agents/risk_examiner.py:142-155 | LOW is tested first, so a line naming LOW and HIGH reports Low |
| RiskExaminer.RiskAdjustedPositionSize | agents/risk_examiner.py:242-284 | the size is in [0, 8]: the base size (8/5/2/0) times the red-flag and ratio factors; a risk score above 8 gives 0 and at most 8 gives a positive size |
| RiskExaminer.PositionSizeMonotone | agents/risk_examiner.py:258-284 | more risk, more red flags or a worse ratio never allow a larger position |
| FinancialCalculator.FreeCashFlow | data/financial_calculator.py:26-34 | FCF = OCF − \|capex\|, never above OCF |
| FinancialCalculator.FcfHistory | data/financial_calculator.py:14-37 | at most 4 entries, entry i being column i's OCF − \|capex\| |
| FinancialCalculator.NonZero | data/financial_calculator.py:51-54 | zeros are dropped and everything else, negatives included, is kept |
| FinancialCalculator.NonZeroAppend | data/financial_calculator.py:51-54 | the filter keeps order: it distributes over concatenation |
| FinancialCalculator.Clamp | data/financial_calculator.py:77 | the final clamp lands in [lo, hi] and leaves a value already inside unchanged |
| FinancialCalculator.CagrAsWritten | data/financial_calculator.py:39-77 | the code as written: any rate it returns lies in [−1, 2], and it is 0 with fewer than two non-zero values |
| FinancialCalculator.CagrAsWrittenRaises | data/financial_calculator.py:64-77 | [−10, 5, 10] (start 10, end −10, two periods) raises instead of returning a rate |
| FinancialCalculator.Cagr | data/financial_calculator.py:39-77 | the corrected CAGR always lies in [−1, 2] |
| FinancialCalculator.CagrAgrees | data/financial_calculator.py:39-77 | the corrected CAGR equals the as-written one wherever that one returns |
| FinancialCalculator.CagrOnePeriodSignFlip | data/financial_calculator.py:64-66 | one period from positive to negative is a total loss, −1 |
| FinancialCalculator.CagrIgnoresZeros | data/financial_calculator.py:51-57 | a zero anywhere in the list does not change the CAGR |
| FinancialCalculator.CagrTurnaround | data/financial_calculator.py:67-69 | a negative start with a positive end gives min((end − start)/\|start\|/n, 2) > 0 |
| FinancialCalculator.RevenueGrowth | data/financial_calculator.py:80-99 | 0 with fewer than two years or prior revenue ≤ 0; otherwise (current − prior)/prior |
| FinancialCalculator.Peg | data/financial_calculator.py:102-118 | a ratio iff P/E is a positive number and growth > 0, in which case PEG × growth% = P/E; otherwise "N/A" |
| FinancialCalculator.MarginKeyInjective | data/financial_calculator.py:136 | distinct argument names give distinct `<name>_margin` keys |
| FinancialCalculator.Margins | data/financial_calculator.py:121-139 | an empty map when revenue ≤ 0; otherwise exactly one key per argument, holding value/revenue·100, or 0 for a falsy value |
| DcfCalculator.StageMultiplier | valuation/dcf_calculator.py:46-52 | stage multipliers lie in [0.5, 1.2], and an unknown stage uses 1.0 |
| DcfCalculator.SizeCap | valuation/dcf_calculator.py:54-66 | the size cap lies in [0.10, 0.30] |
| DcfCalculator.SizeCapAntitone | valuation/dcf_calculator.py:57-66 | a larger market cap never gets a higher cap |
| DcfCalculator.DynamicGrowthRate | valuation/dcf_calculator.py:38-72 | growth = the stage-adjusted 30/30/40 average clamped into [0, size cap], so always in [0, 0.30] |
| DcfCalculator.DynamicGrowthMonotone | valuation/dcf_calculator.py:38-72 | higher historical FCF growth never lowers the dynamic growth rate |
| DcfCalculator.SizePremium | valuation/dcf_calculator.py:107-118 | the size premium lies in [0, 0.035] |
| DcfCalculator.LeveragePremium | valuation/dcf_calculator.py:120-128 | the leverage premium lies in [0, 0.025] |
| DcfCalculator.DynamicWacc | valuation/dcf_calculator.py:104-140 | WACC = cost of equity = rf + β·ERP + size premium + leverage premium, at most 6 points above rf + β·ERP |
| DcfCalculator.DynamicWaccMonotone | valuation/dcf_calculator.py:107-128 | a smaller company or more leverage never lowers the WACC |
| DcfCalculator.GrowthBand | valuation/dcf_calculator.py:180-187 | four growth bands |
| DcfCalculator.GrowthBandMonotone | valuation/dcf_calculator.py:180-187 | faster growth never falls in a lower band |
| DcfCalculator.QualityMultiplier | valuation/dcf_calculator.py:190-197 | the multiplier lies in [0.55, 1], and is 1 iff quality ≥ 8 |
| DcfCalculator.QualityMultiplierMonotone | valuation/dcf_calculator.py:190-197 | higher quality never lowers the multiplier |
| DcfCalculator.PeValuation | valuation/dcf_calculator.py:155-213 | justified P/E = growth-band base × quality multiplier, in [6.6, 28]; the value uses forward EPS when positive, else trailing |
| DcfCalculator.PfcfValuation | valuation/dcf_calculator.py:215-267 | justified P/FCF = growth-band base × quality multiplier, in [6.6, 30], times FCF per share |
| DcfCalculator.JustifiedMultiplesMonotone | valuation/dcf_calculator.py:178-258 | faster growth or higher quality never lowers either justified multiple |
| DcfCalculator.EffectiveGrowth | valuation/dcf_calculator.py:304-306 | growth outside (0, 1] is replaced by 0.10, and growth inside is kept |
| DcfCalculator.EffectiveDiscount | valuation/dcf_calculator.py:308-309 | a discount rate ≤ terminal growth becomes terminal + 0.05; the result always exceeds terminal growth |
| DcfCalculator.CalculateDcf | valuation/dcf_calculator.py:269-355 | FCF ≤ 0 gives the error result; otherwise exactly `years` projected values fcf·(1+g)^k, total PV = stage-1 sum + discounted terminal value, and a per-share value iff shares > 0 |
| DcfCalculator.ProjectedGeometric | valuation/dcf_calculator.py:316-318 | each projected year is the previous one times (1 + g) |
| DcfCalculator.StageOnePositive | valuation/dcf_calculator.py:313-323 | the stage-1 sum is positive for a positive FCF and at least one year |
| DcfCalculator.EnterpriseValuePositive | valuation/dcf_calculator.py:316-331 | with a positive FCF the terminal and total present values are positive |
| DcfCalculator.AssessMos | valuation/dcf_calculator.py:382-392 | the assessment bands >25, >10, >−10, >−25, else, each as an iff |
| DcfCalculator.MarginOfSafety | valuation/dcf_calculator.py:357-401 | None iff intrinsic value ≤ 0; otherwise price = IV·(1 − MoS/100) and the assessment is the band of the MoS |
| DcfCalculator.MarginOfSafetyMonotone | valuation/dcf_calculator.py:374-392 | a higher price never gives a better assessment |
| DcfCalculator.MarginOfSafetyExample | valuation/dcf_calculator.py:374-401 | IV 100 at price 75 is a 25% margin, which is a BUY (not STRONG BUY), with price/value 0.75 |
| Formatters.FormatCurrency | utils/formatters.py:8-25 | "N/A" iff the input is not a number; otherwise exactly `format_number`'s result with a "$" in front |
| Formatters.FormatPercentage | utils/formatters.py:28-42 | "N/A" iff not a number; otherwise the value × 100 followed by "%" |
| Formatters.FormatNumber | utils/formatters.py:45-62 | "N/A" iff not a number; otherwise the grouped value |
| Formatters.FormatLargeNumber | utils/formatters.py:65-88 | "N/A" iff not a number; "-$" iff negative; the magnitude is \|v\| scaled by the suffix; B, M, K or none by the thresholds 1e9, 1e6, 1e3 |
| Formatters.LargeNumberMagnitude | utils/formatters.py:78-88 | below a billion the printed magnitude is under 1000, with a suffix it is at least 1, and the sign never changes it |
| FetcherStatements.YearOf | data/fetcher_v3.py:202 | the year is the first ten characters of the column date |
| FetcherStatements.IncomeRowOf | data/fetcher_v3.py:205-217 | interest expense is stored as its absolute value; the other fields are read as given |
| FetcherStatements.BalanceRowOf | data/fetcher_v3.py:240-254 | equity is read from 'Stockholders Equity', goodwill, assets and current liabilities as given |
| FetcherStatements.CashFlowRowOf | data/fetcher_v3.py:275-290 | FCF = OCF − \|capex\| |
| FetcherStatements.IncomeStatements5y | data/fetcher_v3.py:190-223 | min(5, columns) rows, row i from column i, interest expense never negative |
| FetcherStatements.BalanceSheets5y | data/fetcher_v3.py:225-260 | min(5, columns) rows, row i from column i |
| FetcherStatements.CashFlows5y | data/fetcher_v3.py:262-296 | min(5, columns) rows, row i from column i, each with FCF + \|capex\| = OCF |
| FetcherMetrics.Ratio | data/fetcher_v3.py:359-378 | a guarded ratio: num/den·scale when den > 0, otherwise 0 |
| FetcherMetrics.Mean | data/fetcher_v3.py:350-352 | the average is 0 for no rows, and otherwise mean × count = sum |
| FetcherMetrics.MeanBounds | data/fetcher_v3.py:350-352 | the average of values in [lo, hi] lies in [lo, hi] |
| FetcherMetrics.Positives | data/fetcher_v3.py:323 | exactly the positive revenues are kept |
| FetcherMetrics.Reverse | data/fetcher_v3.py:331-333 | the trends are the filtered values oldest first |
| FetcherMetrics.GrowthRatesOf | data/fetcher_v3.py:321-334 | the three CAGRs, computed with the corrected `Cagr`, lie in [−1, 2]; the revenue trend is the positive revenues and the earnings and FCF trends the non-zero net incomes and FCFs, each oldest first |
| FetcherMetrics.GrowthRatesAsWritten | data/fetcher_v3.py:321-334 | where `calculate_cagr` returns, each rate is its value; the revenue CAGR always returns; where it raises, the rate is −1 |
| FetcherMetrics.EarningsSignFlip | data/fetcher_v3.py:324-329 | net income [−10, 5, 10] makes `calculate_cagr` raise, and the model's earnings CAGR is −1 |
| FetcherMetrics.MarginRowOf | data/fetcher_v3.py:341-346 | each margin × revenue = the amount × 100 |
| FetcherMetrics.WithRevenue | data/fetcher_v3.py:339-340 | only statements with positive revenue get a margin row |
| FetcherMetrics.CalcProfitability | data/fetcher_v3.py:336-353 | one margin row per statement with positive revenue, and the averages are the means of those rows |
| FetcherMetrics.ReturnRowOf | data/fetcher_v3.py:359-378 | ROE, ROA and ROIC are guarded ratios, and 0 when equity or invested capital is ≤ 0 |
| FetcherMetrics.CalcReturns | data/fetcher_v3.py:355-385 | min(income, balance) rows pairing year i with year i; the averages are the means |
| FetcherMetrics.LeverageRowOf | data/fetcher_v3.py:391-399 | debt/equity and the current ratio are guarded ratios |
| FetcherMetrics.CalcLeverage | data/fetcher_v3.py:387-405 | one row per balance sheet, and the averages are the means |
| FetcherMetrics.EfficiencyRowOf | data/fetcher_v3.py:411-424 | asset turnover, inventory turnover and DSO (×365) are guarded ratios |
| FetcherMetrics.CalcEfficiency | data/fetcher_v3.py:407-428 | min(income, balance) rows pairing year i with year i |
| FetcherMetrics.CalculateMetrics5y | data/fetcher_v3.py:302-319 | no metrics iff one of the statement lists is empty; otherwise the growth rates, and the profitability, returns, leverage and efficiency rows and averages, each as its helper states |
| FetcherQuality.Growth | data/fetcher_v3.py:450-451 | period growth is (current − prior)/prior when prior > 0, and 0 otherwise |
| FetcherQuality.FlagListKinds | data/fetcher_v3.py:446-527 | a kind of flag is listed iff its check fired |
| FetcherQuality.FlagListOrdered | data/fetcher_v3.py:446-527 | the flags are listed in check order, at most one of each kind |
| FetcherQuality.CalculateQualityIndicators | data/fetcher_v3.py:434-534 | nothing iff a statement list is empty; otherwise a flag is listed iff its rule holds, in check order with its severity, the count equals the list length (≤ 6), and the three ratios come from the latest year |
| FetcherQuality.RunChecks | data/fetcher_v3.py:446-527 | each of the six checks fires exactly when its rule holds |
| FetcherQuality.ChecksMatchRaised | data/fetcher_v3.py:490-526 | the goodwill flag iff goodwill > 30% of assets; the coverage flag iff coverage < 3 with positive interest; the liquidity flag iff current ratio < 1 |
| FetcherQuality.GoodwillFlag | data/fetcher_v3.py:490-493 | goodwill > 30% iff total assets > 0 and goodwill·100 > 30·assets |
| FetcherQuality.CoverageFlag | data/fetcher_v3.py:502-508 | the coverage check fires iff interest > 0 and EBIT < 3 × interest |
| FetcherQuality.LiquidityFlag | data/fetcher_v3.py:517-520 | the liquidity flag fires when current liabilities ≤ 0 (ratio 0) or assets < liabilities |
| FetcherNews.IsDuplicate | data/fetcher_v3.py:603-607 | the inner loop reports a duplicate iff some seen title is more than 0.8 similar |
| FetcherNews.DeduplicateNews | data/fetcher_v3.py:590-613 | the loop keeps exactly the articles of the reference definition, with `seen_titles` the lower-cased kept titles |
| FetcherNews.DedupSubsequence | data/fetcher_v3.py:592-613 | the kept articles are an order-preserving subsequence of the input |
| FetcherNews.DedupEmpty | data/fetcher_v3.py:592-593 | no news gives no news |
| FetcherNews.DedupKeepsFirst | data/fetcher_v3.py:598-611 | the first article is always kept, and comes first |
| FetcherNews.DedupPairwiseDistinct | data/fetcher_v3.py:598-611 | no kept title is more than 0.8 similar to a title kept before it |
| FetcherNews.DedupDropsOnlySimilar | data/fetcher_v3.py:598-611 | every article is kept or is more than 0.8 similar to a kept title |
| FetcherNews.DedupOfDistinct | data/fetcher_v3.py:598-611 | a list with no two similar titles passes through unchanged |
| FetcherNews.DedupIdempotent | data/fetcher_v3.py:590-613 | de-duplicating twice gives the same list as once |
| FetcherNews.Blocks | data/fetcher_v3.py:903-908 | block i shows article i numbered from 1 |
| FetcherNews.FormatNews | data/fetcher_v3.py:890-912 | the `+=` loop builds the header counting every article, followed by the blocks of the first 30 |
| FetcherNews.NewsSectionShowsFirst30 | data/fetcher_v3.py:896-908 | exactly min(30, n) blocks; each of the first 30 articles appears with its number; the header counts all n |
| FetcherNews.SnippetCut | data/fetcher_v3.py:907 | a snippet shows at most 200 characters, and a short one is shown whole |
| RiskContext.BalanceLines | agents/risk_examiner_prompts.py:659-666 | one line per balance row, in order |
| RiskContext.BalanceSection | agents/risk_examiner_prompts.py:656-667 | the balance section is empty iff `balance_5y` is missing or empty |
| RiskContext.BalanceText | agents/risk_examiner_prompts.py:656-667 | the `+=` loop builds exactly the balance section |
| RiskContext.FcfRatio | agents/risk_examiner_prompts.py:678 | the ratio is 0 when NI = 0, and otherwise ratio × NI = FCF × 100 |
| RiskContext.FcfLines | agents/risk_examiner_prompts.py:673-679 | min(income, cashflow) lines |
| RiskContext.FcfSectionPresence | agents/risk_examiner_prompts.py:670-680 | the FCF section is absent iff income or cash-flow rows are missing |
| RiskContext.FcfText | agents/risk_examiner_prompts.py:670-680 | the `+=` loop builds exactly the FCF section |
| RiskContext.FcfLinesPairing | agents/risk_examiner_prompts.py:673-679 | line i pairs income year i with cash-flow year i |
| RiskContext.FcfLinesStep | agents/risk_examiner_prompts.py:673-674 | an income row past the last cash-flow row adds no line |
| RiskContext.FlagLines | agents/risk_examiner_prompts.py:685-686 | one line per pre-identified flag, in order |
| RiskContext.FlagsText | agents/risk_examiner_prompts.py:683-686 | the loop builds exactly the flags section |
| RiskContext.TitleLines | agents/risk_examiner_prompts.py:693-695 | at most 15 titles, numbered from 1 |
| RiskContext.NewsText | agents/risk_examiner_prompts.py:689-696 | the loop builds exactly the news section |
| RiskContext.FormatRiskContext | agents/risk_examiner_prompts.py:612-716 | the context is overview, business, balance, FCF vs NI, red flags, news, value and growth, in that order |
| RiskContext.ReportTruncated | agents/risk_examiner_prompts.py:699-714 | a report appears only when supplied and non-empty, cut to its first 2000 characters; the value report precedes the growth report |
| RiskContext.OnlyFirstTitlesMatter | agents/risk_examiner_prompts.py:693 | news lists that agree on their first 15 articles give the same section |
| RiskContext.UnpairedIncomeIgnored | agents/risk_examiner_prompts.py:673-674 | income rows beyond the cash-flow rows never show |
| RiskContext.BalanceDict | data/fetcher_v3.py:240-254 | the fetcher's balance row carries equity under 'total_equity' |
| RiskContext.FetcherEquityShownAsZero | agents/risk_examiner_prompts.py:663 | for every fetcher row the 'shareholders_equity' key is absent, so equity shows as 0.0B |
| CioContext.CurrentPrice | agents/cio_prompts.py:437 | the current price falls back from currentPrice to regularMarketPrice to 0 |
| CioContext.Insert | agents/cio_prompts.py:440 | the insertion step of the sort keeps the multiset of keys |
| CioContext.SortDesc | agents/cio_prompts.py:440 | the sort is a permutation of the keys |
| CioContext.InsertDescending | agents/cio_prompts.py:440 | inserting into a descending list keeps it descending |
| CioContext.SortDescDescending | agents/cio_prompts.py:440 | distinct keys sort into strictly descending order |
| CioContext.TableYears | agents/cio_prompts.py:439-440 | min(5, n) years |
| CioContext.TableYearsAreLargest | agents/cio_prompts.py:439-440 | the table years descend, each is a key, and every key left out is smaller than every year shown |
| CioContext.YearCells | agents/cio_prompts.py:512-513 | one header cell per year |
| CioContext.ValueCells | agents/cio_prompts.py:530-536 | one value cell per year |
| CioContext.MetricRows | agents/cio_prompts.py:516-537 | one row per metric of the nine |
| CioContext.RowText | agents/cio_prompts.py:529-537 | the inner loop builds exactly one metric's row |
| CioContext.HeadText | agents/cio_prompts.py:511-514 | the loop builds exactly the header line and the rule |
| CioContext.RowsText | agents/cio_prompts.py:528-537 | the outer loop builds exactly the nine rows |
| CioContext.TableText | agents/cio_prompts.py:509-537 | the nested loops build exactly the table |
| CioContext.FormatCioContext | agents/cio_prompts.py:404-576 | the context is the header, the table, then the three full reports and the closing |
| CioContext.TableOmittedWithoutYears | agents/cio_prompts.py:510 | the table is empty iff there are no years |
| CioContext.MissingValueShowsNA | agents/cio_prompts.py:531-535 | a missing or None value prints "N/A" right-aligned in 12 columns; a number prints value/divisor with the suffix |
| CioContext.BusinessTruncated | agents/cio_prompts.py:457 | only the first 2000 characters of the business analysis appear |
| CioContext.ReportsVerbatimInOrder | agents/cio_prompts.py:539-574 | the value, growth and risk reports appear whole, in that order, each after its own heading |
| PerformanceTracking.EntryOf | utils/performance_tracker.py:89-118 | every entry has all 28 columns |
| PerformanceTracking.EntryDefaults | utils/performance_tracker.py:89-118 | a supplied key is copied; a missing one gets 'UNKNOWN' (ticker, recommendation), 'unknown' (model), None (numeric) or '' (text) |
| PerformanceTracking.MatchingExact | utils/performance_tracker.py:168-195 | the filter holds exactly the logged entries whose field equals the value |
| PerformanceTracking.MatchingAppend | utils/performance_tracker.py:168-195 | the filter keeps log order: it distributes over concatenation |
| PerformanceTracking.CountsBounded | utils/performance_tracker.py:229-232 | BUY + SELL + HOLD counts ≤ total |
| PerformanceTracking.Convictions | utils/performance_tracker.py:235 | only non-None convictions are averaged |
| PerformanceTracking.AverageConvictionBounds | utils/performance_tracker.py:235-236 | the average is 0 without convictions, and otherwise lies within the convictions' bounds |
| PerformanceTracking.PerformanceTracker.constructor | utils/performance_tracker.py:23-38 | a new tracker starts with an empty log |
| PerformanceTracking.PerformanceTracker.LogDecision | utils/performance_tracker.py:64-140 | exactly one entry is appended after all existing ones, which stay unchanged |
| PerformanceTracking.PerformanceTracker.DecisionsByTicker | utils/performance_tracker.py:158-169 | exactly the logged entries with that ticker |
| PerformanceTracking.PerformanceTracker.DecisionsByRecommendation | utils/performance_tracker.py:171-182 | exactly the logged entries with that recommendation |
| PerformanceTracking.PerformanceTracker.DecisionsByModel | utils/performance_tracker.py:184-195 | exactly the logged entries made with that model |
| PerformanceTracking.PerformanceTracker.GenerateSummaryReport | utils/performance_tracker.py:216-278 | "No decisions logged yet." iff the log is empty; an error (TypeError or ValueError) iff a conviction is not a number, a ticker or model anywhere in the log is not a string, or one of the last ten entries lacks a string recommendation or a numeric price or fair value; otherwise the total, the BUY, SELL and HOLD counts (summing to at most the total), the average conviction, exactly the tickers and models logged, the first and last dates, and the last min(10, n) entries |
| PerformanceTracking.UnpricedDecisionRaises | utils/performance_tracker.py:100-274 | a decision logged without a fair value makes the summary report raise |
| PerformanceTracking.NonTextTickerRaises | utils/performance_tracker.py:239-261 | a ticker that is not a string, anywhere in the log, makes the summary report raise |
| PerformanceTracking.LoggedThenQueried | utils/performance_tracker.py:121-169 | after logging, a query for the entry's ticker returns the earlier matches followed by the new entry |
| PerformanceTracking.FirstPickedLineDecides | utils/performance_tracker.py:400-408 | the first line the guard picks decides the field (`break`) |
| PerformanceTracking.NoPickedLineKeeps | utils/performance_tracker.py:400-408 | when no line is picked, the field is not written |
| PerformanceTracking.ScanLines | utils/performance_tracker.py:333-339 | the `for line … break` loop returns exactly the first picked line's outcome |
| PerformanceTracking.RunSection | utils/performance_tracker.py:330-394 | the blocks run in order, each guarded by its `in` test on the text |
| PerformanceTracking.UnmentionedSection | utils/performance_tracker.py:330-394 | a text that mentions no guard changes nothing |
| PerformanceTracking.SectionWrites | utils/performance_tracker.py:330-448 | a section never removes a key and only adds its own rules' keys |
| PerformanceTracking.NoneStays | utils/performance_tracker.py:330-448 | once an uncaught error has ended the extraction, later sections change nothing |
| PerformanceTracking.Without | utils/performance_tracker.py:358 | `replace` removes every listed character |
| PerformanceTracking.NumberAfterColon | utils/performance_tracker.py:345-349 | the number reads are wrapped in try/except and never raise |
| PerformanceTracking.RecommendationOf | utils/performance_tracker.py:332-339 | the recommendation written is a string, and the read raises only on an uppercase "RECOMMENDATION:" line |
| PerformanceTracking.FairValueOf | utils/performance_tracker.py:367-371 | the fair-value read is wrapped in try/except and never raises |
| PerformanceTracking.MoatOf | utils/performance_tracker.py:413-420 | STRONG, then MEDIUM, then WEAK is tested; no word leaves the field unwritten |
| PerformanceTracking.FirstWordAfterColon | utils/performance_tracker.py:426 | a non-empty first word after the colon, or an IndexError iff there is no colon or nothing after it |
| PerformanceTracking.RiskRatingOf | utils/performance_tracker.py:446-447 | the text after the first ':', up to '(' and trimmed; a line with a colon always yields a rating |
| PerformanceTracking.StripKeepsOut | utils/performance_tracker.py:447 | stripping never brings back a character that was cut off |
| PerformanceTracking.StripEnds | utils/performance_tracker.py:447 | a stripped text starts and ends with no space |
| PerformanceTracking.ColonSplits | utils/performance_tracker.py:443-446 | a line containing a marker ending in ':' has a piece after its first ':' |
| PerformanceTracking.CioSource | utils/performance_tracker.py:323-328 | a non-empty decision dict is used in place of the report text; otherwise the full synthesis |
| PerformanceTracking.ExtractDecisionData | utils/performance_tracker.py:303-450 | the extraction is the base data, then the CIO, value and risk sections in that order; an uncaught error yields no record |
| PerformanceTracking.CioDecisionDictParsesNothing | utils/performance_tracker.py:328-394 | with the dict `get_decision_summary` returns as the CIO decision, no CIO field is parsed, and the result holds no CIO key |
| PerformanceTracking.CioGuardsAreNotKeys | utils/performance_tracker.py:332-386 | no CIO guard phrase is a key of the decision dict |
| PerformanceTracking.LaterBlocksKeep | utils/performance_tracker.py:396-448 | the value and risk sections never write a CIO key |
| PerformanceTracking.TwoBlocksKeep | utils/performance_tracker.py:396-448 | two sections that write other keys keep a key absent |
| PerformanceTracking.LaterRulesWriteOtherKeys | utils/performance_tracker.py:396-448 | the value and risk rules write only their own keys |
| PerformanceTracking.FairValuePick | utils/performance_tracker.py:364-366 | "CIO Fair Value:" adds nothing to the guard: a line is picked iff it contains "Fair Value:" |

## Left out

- The LLM calls (`analyze`, `synthesize`, the provider branching) are left out. They are network calls whose output is not deterministic.
- Market and news fetching is left out: the yfinance and search calls, `fetch_all_data`, `_get_company_info`, `_get_market_data`, `_get_comprehensive_news` and `_validate_data_quality`. They are foreign calls. The model starts from the statement columns and articles they return.
- Regular expressions are abstract matchers supplied by the caller. IGNORECASE, DOTALL, lazy matching and lookahead are not modelled. Only the chains and update logic around the matchers are.
- `difflib.SequenceMatcher.ratio` is an uninterpreted similarity function.
- Fractional powers in CAGR (`x ** (1/n)`) are an uninterpreted root parameter. Exponent 1 is exact.
- Python `float()` of a text in `extract_decision_data` is an abstract parser parameter.
- Floating point is modelled as exact `real` arithmetic. IEEE rounding, NaN, infinity, `round(x, 2)` and `np.mean` are not modelled, so a NaN value is never filtered.
- Number formatting (`:.2f`, `:,.0f`, `:>11.2f`) is an abstract `Format` parameter, and `Formatters` returns the number with its prefix, decimals and suffix rather than the final text.
- Letter case is mapped for ASCII only. `upper()` and `lower()` of other characters are the identity.
- File I/O is left out: the JSON and CSV log files, the CSV column order, the log directory, and a tracker opening an existing log. The log is an in-memory sequence.
- `get_recent_decisions` and `export_for_analysis` are left out. The first depends on the clock and the second writes a file.
- The clock in `log_decision` (timestamp and date) is a parameter.
- Orchestration, the CLI, console output, the prompt constants, `format_value_context`, `format_growth_context` and the legacy scripts are not part of this model.
- `format_dcf_report` and the report text of `format_for_llm` other than the news section are not part of this model.
- PerformanceTracking.PerformanceTracker.GenerateSummaryReport: models the figures the report prints and whether it raises, but not the text layout. The error is one outcome, `Raises`: the model does not say which exception (TypeError or ValueError) is raised or which failing step raises first.
- PerformanceTracking.EntryOf: analysis data is keyed by the 28 log columns. Other keys of the Python dict are ignored by the source too.
- PerformanceTracking.AverageConvictionBounds: a conviction that is not a number is read as 0. The source raises on `sum`, and the summary report returns the TypeError in that case.
- CioContext.MissingValueShowsNA: a table value that is present but not a number is divided as 0. The source would raise.
- CioContext.FormatCioContext: `data['ticker']` is a parameter, so the KeyError on a missing ticker is not modelled.
- FinancialCalculator.FcfHistory: the DataFrame is a list of columns with optional rows. A missing row is read as 0.
- FinancialCalculator.Peg: returns the ratio, not the two-decimal text.
- CioSynthesizer.CompositeScore: states the bound before `round(…, 2)`.
- CioSynthesizer.PositionSize: states the bound before `round(…, 2)`.
- ValueHunter.SupplementaryValuation: the outer `except` around the whole valuation is not modelled. A `sharesOutstanding` of None is read as 0.
- FetcherMetrics.GrowthRatesOf: uses the corrected `Cagr` (see Findings). For an earnings or FCF history that turns from positive to negative over two or more periods, the source's result depends on the number type: with Python floats the power is complex and `min` raises TypeError; with the numpy values the fetcher reads from its pandas columns, the power is NaN and the clamp returns NaN. The model reports −1 in both cases.
- Records.Num: a present value that is not a number, such as None, is read as 0. The source raises TypeError on `/ 1e9`.
- RiskContext.BalanceLines: a balance value that is present but not a number is read as 0. The source raises TypeError.
- RiskContext.FcfLines: a net income or FCF that is present but not a number is read as 0. The source raises TypeError.
- FetcherQuality.CalculateQualityIndicators: a flag keeps its kind and severity, but not the detail text with the figures that raised it.
- RiskContext.FormatRiskContext: `data['red_flags']` is an optional list of flag/detail pairs in dict order.

## Findings

| source | as written | input that shows it | evidently intended | confidence | as-written member | corrected member |
|---|---|---|---|---|---|---|
| data/financial_calculator.py:64-77 | a positive start and a negative end over two or more periods take a fractional power of a negative ratio; with Python numbers the result is complex and `min(cagr, 2.0)` raises TypeError; with numpy values it is NaN, which the clamp passes through | values [−10, 5, 10] (start 10, end −10, 2 periods) | a rate in [−1, 2], as the final clamp and the docstring promise: a total loss of −1, the value the one-period case already clamps to | not executed | FinancialCalculator.CagrAsWrittenRaises | FinancialCalculator.Cagr |
