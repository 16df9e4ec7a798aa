# Buffett-style fundamental scanner: the per-stock decision pipeline

`market_scanner.py` screens each ticker of the S&P 500 against four "elite" thresholds:
- gross margin of at least 45%;
- ROIC of at least 25%;
- debt-to-equity of at most 0.5;
- free-cash-flow yield of at least 5%.

It stores a SURVIVOR or REJECTED verdict per ticker, together with:
- the failure reasons;
- a valuation bucket;
- a cash-quality flag (the "lie detector");
- two scores.

A verdict younger than the cache window is reused and not recomputed.

This Dafny project models that decision pipeline and proves properties about it. The modules follow the pipeline:

- **Numbers**: `sanitize_float` over a value that may be None, NaN, infinite or finite; Python's `int()` truncation; `min`/`max` clamping; the thresholds and the cache window (`Elite`).
- **Tables**: the statement tables (a row per line item, a column per year, most recent first, plus a count of rows under labels the scanner never reads, which still make a table non-empty) and the snapshot `info` record. A cell that cannot be converted is `Garbled`, which is how the model represents an exception raised while indexing.
- **History**: the three-year lookback. It holds the per-year gross-margin and ROIC samples as functions, the loop `CollectSamples` that builds both lists the way the scanner does, and the mean/minimum with the fallback to the current-period value.
- **Metrics**: current ROIC, debt-to-equity, current gross margin, the free-cash-flow fallback chain (first match wins), the FCF yield, the lie detector, and the imperative cash-flow block `ResolveCashFacts`.
- **Verdict**: the five rules, evaluated in order and never short-circuiting; the status; the valuation bucket; the cash-engine and safety scores.
- **Report**: the stored reason text (headings joined with `" | "`) and the dashboard's way of reading it back (`explode('|', …)` and then `trim` on each piece, `index.php`).
- **Scanner**: one stock's analysis after a cache miss, as a function (`Analyze`) and as the step-by-step method (`AnalyzeFresh`) proved equal to it.
- **Freshness**: the freshness gate and a `Store` class holding the latest record per ticker. `AnalyzeStock` is the per-ticker entry point: check the cache, otherwise analyze and upsert.
- **Findings**: the code as written on non-finite numbers and on a zero window, with the inputs that show the differences (see "## Findings").

The current time, the outcome of each store read or write, and everything fetched from the data provider are parameters.

## Model

| member | source | states |
|---|---|---|
| Numbers.Sanitize | market_scanner.py:106-109 | A finite value passes unchanged; None, NaN and ±infinity all become 0.0, because any non-zero result is the input itself. |
| Numbers.SanitizeIdempotent | market_scanner.py:106-109 | Sanitizing an already sanitized value changes nothing. |
| Numbers.Truncate | market_scanner.py:281-282 | `int()` truncates toward zero: the floor for non-negative values and the ceiling for negative ones. |
| Numbers.Clamp | market_scanner.py:190 | `min(hi, max(lo, x))` is `x` itself when `x` is in [lo, hi], `lo` below the range and `hi` above it. |
| Tables.ReadCell | market_scanner.py:106-109 | Sanitizing a table cell fails exactly on a cell that cannot be converted; a finite cell yields its value, and a None, NaN or ±infinite cell yields 0.0. |
| Tables.Read | market_scanner.py:164-184 | An absent line item reads as 0; a present one reads its sanitized cell in the given year's column. |
| Tables.Get | market_scanner.py:142-150 | `info.get(key, default)`: the stored value when the key is present, else the default. |
| History.YearsCovered | market_scanner.py:158-159 | History covers min(3, income columns, balance columns) years, and none when either table is empty (no columns, or no rows of any label). |
| History.UnreadRowsStillCount | market_scanner.py:158-169 | A one-column balance sheet holding only rows the scanner never reads is not empty: the year is walked and a 2,000,000 / 1,000,000 income statement gives the gross-margin sample 50%. |
| History.MissingIncomeRowsGiveZeroRoic | market_scanner.py:164-191 | An income statement without revenue, gross profit or net income rows reads them as 0: no gross-margin sample, and an ROIC sample of 0 when invested capital is material. |
| History.YearGrossMargin | market_scanner.py:164-169 | A year gives a gross-margin sample exactly when its revenue and gross-profit reads succeed and revenue exceeds 1,000,000; the sample times revenue equals 100 times gross profit. |
| History.ShortDebt | market_scanner.py:175-179 | Short-term debt is the "Current Debt" row when present, else the "Short Long Term Debt" row, else 0. |
| History.YearRoic | market_scanner.py:171-191 | A year gives an ROIC sample exactly when all of its reads succeed and invested capital exceeds 1,000,000; every sample lies in [-100, 200]. |
| History.YearRoicValue | market_scanner.py:188-191 | A year's ROIC sample is net income / invested capital × 100 when that lies in [-100, 200], exactly 200 above the range and exactly -100 below it. |
| History.CollectSamples | market_scanner.py:153-194 | The lookback loop, where a failing read skips the rest of that year only, returns exactly the per-year samples of the covered years, in year order. |
| History.GrossMarginSamplesAreYears | market_scanner.py:161-169 | There is at most one gross-margin sample per covered year; every sample comes from a qualifying year, and every qualifying year contributes its sample. |
| History.RoicSamplesAreYears | market_scanner.py:171-191 | There is at most one ROIC sample per covered year; every sample comes from a qualifying year, and every qualifying year contributes its sample. |
| History.RoicSamplesBounded | market_scanner.py:188-191 | Every historical ROIC sample lies in [-100, 200]. |
| History.BalanceFailureKeepsGrossMargin | market_scanner.py:164-194 | A year whose balance-sheet read fails loses only its ROIC sample; the gross-margin sample appended before the failing read is kept. |
| History.ImmaterialRevenueExcluded | market_scanner.py:167-169 | Revenues of 500,000 and 2,000,000 (with gross profit 1,000,000) give the single sample 50%, not two samples. |
| History.Minimum | market_scanner.py:203 | `np.min` is an element of the list that is no greater than any other element. |
| History.Mean | market_scanner.py:202 | `np.mean`: the mean taken once per sample adds up to the samples' sum. |
| History.MeanBetweenMinAndMax | market_scanner.py:202-203 | The mean of the samples lies between their minimum and maximum. |
| History.Summarize | market_scanner.py:201-213 | With no samples, both the average and the minimum are the current value. Otherwise the average is the mean of the samples (`np.mean`) and the minimum is a sample no greater than any other. In both cases the minimum is at most the average. |
| History.SummarizeWithin | market_scanner.py:208-213 | When every sample lies in [lo, hi], so do the minimum and the average. |
| Metrics.CurrentRoic | market_scanner.py:198-199 | Current ROIC is capped at 200 (with no lower cap) and is 0 when equity + debt is not positive. Otherwise its sign is the sign of net income; it equals net income / capital × 100 when that is below 200, and exactly 200 when that reaches 200. |
| Metrics.DebtToEquityRatio | market_scanner.py:149 | The ratio is one hundredth of the sanitized `debtToEquity` percentage. |
| Metrics.CurrentGrossMargin | market_scanner.py:197 | The current gross margin is 100 × the reported fraction, and 0 when that fraction is missing or not finite (the corrected reading, see Findings). |
| Metrics.FirstMatch | market_scanner.py:223-233 | First match wins: the first applicable link decides, giving its value, or the fallback when its read raises; when no link applies, the result is the fallback. |
| Metrics.FreeCashFlowOf | market_scanner.py:219-233 | FCF is the snapshot estimate when the cash-flow table is missing or empty; any other value comes from an applicable table link. |
| Metrics.FreeCashFlowFirstAvailable | market_scanner.py:219-233 | The chain case by case: the "Free Cash Flow" row if present; else operating cash flow + capital expenditure if both are present; else the estimate. Each cell is sanitized, so a cell `sanitize_float` cannot convert raises inside the block's `try` and gives the estimate (the corrected reading, see Findings). |
| Metrics.FcfYield | market_scanner.py:235 | The yield y satisfies y × market cap = 100 × FCF, and has the sign of FCF, when the cap is positive; otherwise it is 0. |
| Metrics.CashQualityOf | market_scanner.py:237-240 | SUSPICIOUS exactly when net income is positive and FCF is below 70% of it. |
| Metrics.CashQualityCases | market_scanner.py:237-240 | A loss is never suspicious, and FCF covering 70% of profit is never suspicious. A profit with non-positive FCF always is. |
| Metrics.ResolveCashFacts | market_scanner.py:219-240 | The imperative cash-flow block computes the chain's FCF, the yield relation and the lie-detector flag. |
| Verdict.ScreenReasons | market_scanner.py:242-262 | The successive appends produce every rule's reasons, strictly in rule order. |
| Verdict.ReasonsInRuleOrder | market_scanner.py:242-262 | Reasons come in rule order, with at most one per rule (never both WEAK and UNSTABLE for one metric) and at most five in total. |
| Verdict.StabilityReasonsExactly | market_scanner.py:245-253 | WEAK MOAT/ENGINE appears exactly when the average fails its threshold. UNSTABLE appears exactly when the average passes and the minimum is below 0.8 × the threshold. |
| Verdict.ThresholdReasonsExactly | market_scanner.py:255-262 | HIGH DEBT, EXPENSIVE and POOR CASH QUALITY each appear exactly when their own rule fails. |
| Verdict.StatusOf | market_scanner.py:265-270 | SURVIVOR exactly when there are no reasons. |
| Verdict.SurvivorIff | market_scanner.py:242-270 | A stock survives exactly when both averages and both minimums pass, the ratio is at most 0.5, the yield is at least 5%, and the cash is verified. |
| Verdict.Bucket | market_scanner.py:274-276 | BARGAIN exactly above 8%, FAIR exactly in (4.5, 8], PRICEY exactly at or below 4.5. |
| Verdict.BucketMonotone | market_scanner.py:274-276 | A higher yield never lands in a pricier bucket. |
| Verdict.CashScore | market_scanner.py:279-281 | The cash score is at most 100 and exactly 100 from 40% ROIC and 80% margin up; it is non-negative for non-negative inputs. |
| Verdict.CashScoreMonotone | market_scanner.py:279-281 | The cash score never falls as ROIC or gross margin rises. |
| Verdict.CashScoreCanBeNegative | market_scanner.py:279-281 | There is no lower clamp: an average ROIC of -100 with a 50% margin scores -125. |
| Verdict.SafetyScore | market_scanner.py:282 | The safety score is never negative and at most 100 for a non-negative ratio; it is 100 without debt and 0 from a ratio of 0.5 up. |
| Verdict.SafetyScoreAntitone | market_scanner.py:282 | More leverage never raises the safety score. |
| Report.Headings | market_scanner.py:246-262 | One heading per reason, in the reasons' order. |
| Report.ReasonText | market_scanner.py:265-271 | A survivor's text is "BUFFETT ELITE". |
| Report.JoinExplodeRoundTrip | index.php:183-185 | Splitting a `" \| "`-joined text on '\|' and trimming each piece gives back the parts, provided each part is non-empty, has no '\|' and no blank at either end. |
| Report.ReasonTextReadsBack | market_scanner.py:265-271 | The stored text of a rejected stock reads back as its reasons' headings, in order. |
| Scanner.AnalyzeFresh | market_scanner.py:136-282 | The step-by-step analysis equals `Analyze`, the pipeline as a value. |
| Scanner.AnalyzeInvariants | market_scanner.py:136-282 | The analysis gives no verdict exactly when `Aborts` holds: no snapshot or no current price, a statement table that could not be fetched, or a market cap of None. Every verdict satisfies: survivor iff no reasons; a survivor's text is "BUFFETT ELITE"; a rejected stock's text reads back as its headings; at most five reasons, in rule order; ROIC at most 200; safety score non-negative; cash score at most 100; bucket consistent with the yield. |
| Scanner.RoicAggregateBounds | market_scanner.py:188-213 | The average ROIC is at most 200 and at least the minimum; with history, the minimum is at least -100. |
| Scanner.NoHistoryFallsBack | market_scanner.py:158-213 | When either statement table is empty, the stored gross margin and ROIC are the current-period values. |
| Scanner.ScenarioSurvivor | market_scanner.py:242-276 | 55% margin, 30% ROIC, ratio 0.2, 9% yield, 90 FCF against 100 profit: SURVIVOR, BARGAIN, VERIFIED, no reasons. |
| Scanner.ScenarioPoorCash | market_scanner.py:237-262 | The same stock with 50 FCF against 100 profit is rejected for POOR CASH QUALITY alone. |
| Scanner.ScenarioHighDebt | market_scanner.py:255-282 | A ratio of 0.6 adds exactly HIGH DEBT and gives a safety score of 0. |
| Scanner.ScenarioAllReasons | market_scanner.py:245-256 | Failing margin, ROIC and debt together gives exactly three reasons in rule order. |
| Freshness.Gate | market_scanner.py:62-69 | Reuse exactly when a row was read, it has a timestamp, the window is positive and the age is below the window; a failed read recomputes. |
| Freshness.GateBoundary | market_scanner.py:65 | An age exactly equal to the window recomputes, one microsecond less reuses, and a window of 0 never reuses. |
| Freshness.Store.Latest | market_scanner.py:52-69 | A failed read gives ReadFailed; otherwise the ticker's record, or NotFound. |
| Freshness.Store.Upsert | market_scanner.py:71-94 | A successful write overwrites the ticker's record, stamped with the write time; a failed write leaves the store unchanged. |
| Freshness.Store.AnalyzeStock | market_scanner.py:111-134 | A reusable cached record leaves the store unchanged. Otherwise the store gains the fresh verdict when there is one and the write succeeds. No other ticker's record changes. |
| Findings.NaNFreeCashFlowSlipsThrough | market_scanner.py:224-240 | As written, a NaN "Free Cash Flow" cell makes a profitable stock neither EXPENSIVE nor SUSPICIOUS. Sanitized, it is both. |
| Findings.NonNumericFreeCashFlowDropsStock | market_scanner.py:224-235 | As written, a non-numeric "Free Cash Flow" cell with a positive market cap raises after the `try` and the stock gets no record. The corrected chain uses the estimate. |
| Findings.FreeCashFlowAgreesOnFiniteCells | market_scanner.py:224-233 | On finite cells, the unsanitized chain and `Metrics.FreeCashFlowOf` agree. |
| Findings.CashRulesAgreeOnFinite | market_scanner.py:235-240 | On a finite FCF, the as-written yield, bucket and lie detector agree with the model's. |
| Findings.NaNGrossMarginSlipsThrough | market_scanner.py:197-248 | As written, a NaN `grossMargins` with no history passes the moat rule. Sanitized, it gives WEAK MOAT. |
| Findings.NoneGrossMarginDropsStock | market_scanner.py:197 | As written, a `grossMargins` of None makes the multiplication raise (no record); the corrected current margin is 0. |
| Findings.InfiniteGrossMarginAsWritten | market_scanner.py:197-281 | As written, +infinity without history fires no moat rule and caps the score part at 40 (as NaN does); -infinity fires WEAK MOAT but leaves the score part infinite, so `int()` raises; the corrected reading gives WEAK MOAT for both. |
| Findings.MoatAgreesOnFinite | market_scanner.py:197-248 | On a finite `grossMargins` with no history, the as-written moat rule and the model's agree. |
| Findings.ZeroWindowReusesFutureRecord | market_scanner.py:29-65 | As written, a window of 0 still reuses a record stamped after the current time. The corrected gate recomputes. |
| Findings.GateAgreesOnPastRecords | market_scanner.py:62-69 | For a positive window, or a record not stamped in the future, the corrected gate decides as the code does. |

## Behaviours of the code worth noting

- When the cash-flow table cannot be fetched, is empty, or has neither usable row, or a read inside the block's `try` raises, FCF is the snapshot's `freeCashFlow` estimate (lines 229-233).
- The cash-engine score has no lower clamp (lines 279-281). Negative ROIC drives it below 0 (`CashScoreCanBeNegative`).
- The stored `roic_current` is the average ROIC, not the current one (lines 217, 284).

## Left out

- I/O is not modelled: the MySQL connection and SQL text, the retry loop around `yf.Ticker`, the Wikipedia ticker scrape and its fallback list, console output, and the `__main__` timing. The store is a map; each read or write takes a success flag, and provider results arrive as `Fetched`.
- The four-worker thread pool is not modelled. Tickers are independent and each touches only its own record (`AnalyzeStock` leaves other tickers unchanged), but interleaving is not modelled.
- Company name and price are copied into the record and not modelled.
- Reason texts are modelled by their headings only. The figures formatted into them (`:.0f`, `:.1f`, `:.2f`) are not rendered.
- IEEE floating point is not modelled in the main pipeline: numbers are exact reals, and non-finite values exist only as the `Raw` cases that sanitizing removes. The float behaviours of the code as written appear only in Findings.
- `Scanner.MarketCapOf`: a market cap of NaN or ±infinity is sanitized to 0. For the finite FCF the model produces, this gives the same yield of 0 as the code's failing comparison or its division by infinity. A market cap of None aborts, as in the code.
- How a non-finite value would be written to MySQL is not modelled.
- Snapshot values are numbers, None, NaN or ±infinity only (`Info` maps keys to `Raw`), so a non-numeric snapshot value (a string, say) cannot be expressed. In the code its effect depends on the field:
  - `totalDebt`, `totalStockholderEquity`, `debtToEquity`, `netIncomeToCommon`: `sanitize_float` raises at line 108 (called from lines 147-150), and the stock gets no record.
  - `marketCap`: the comparison `market_cap > 0` raises at line 235, and the stock gets no record.
  - `grossMargins`: never sanitized; `* 100` at line 197 repeats a string instead of raising. Only without gross-margin history does the string reach the comparison at line 245, which raises, and the stock gets no record. With history the current value is unused and the stock is recorded.
  - `freeCashFlow`: read only when the cash-flow chain falls back (lines 229-233). There `sanitize_float` raises, also inside the `except` branch, and the stock gets no record. When a table link supplies FCF the estimate is never read and the stock is recorded.
  - `currentPrice`: never used in arithmetic; it is copied into the record as it is.
- Exceptions inside table indexing (a non-numeric cell, a duplicated label returning several rows, an index past the row) are all modelled as a `Garbled` cell. In the cash-flow table as written, a `Garbled` cell is taken to be a non-numeric scalar such as a string; duplicated labels in the cash-flow table, whose rows behave differently under arithmetic, are not modelled there.
- `Freshness.Store.AnalyzeStock`: timestamps are integer microseconds, and the store's `NOW()` and the scanner's `datetime.now()` are both the single `now` parameter. Clock skew appears only in Findings.

## Findings

| source | as written | input that shows it | evidently intended | confidence | as-written member | corrected member |
|---|---|---|---|---|---|---|
| market_scanner.py:224-227 | The FCF read from the cash-flow table is not passed through `sanitize_float`. | A "Free Cash Flow" row whose latest cell is NaN, for a stock with positive net income and market cap. The yield is NaN, `NaN < 5` and `NaN < 0.7 × income` are false, so there is no EXPENSIVE and no POOR CASH QUALITY reason. | FCF is sanitized like every other input (0.0), giving EXPENSIVE and SUSPICIOUS. | not executed | Findings.NaNFreeCashFlowSlipsThrough | Metrics.FreeCashFlowOf |
| market_scanner.py:225-235 | The unsanitized FCF cell is used as it is, outside the `try`. | A "Free Cash Flow" cell holding a string, with a positive market cap: `fcf / market_cap` raises at line 235, the outer handler swallows it, and the stock gets no record. The same happens with a positive net income at line 239. | `sanitize_float` raises inside the block's `try`, and the estimate is used. | not executed | Findings.NonNumericFreeCashFlowDropsStock | Metrics.FreeCashFlowOf |
| market_scanner.py:197 | `info.get('grossMargins', 0) * 100` is not sanitized. | `grossMargins` = NaN and no gross-margin history. The average and minimum are NaN, both moat comparisons are false, and no moat reason is given. +infinity passes the moat rule the same way. -infinity gives WEAK MOAT, but `min(40, -inf)` leaves the score part infinite and `int()` raises at line 281, so the stock gets no record; None raises at line 197 with the same result. | The current margin is sanitized to 0, giving WEAK MOAT. The corrected reading sanitizes None and ±infinity to 0 as well, so such a stock also gets WEAK MOAT and a verdict instead of no record. | not executed | Findings.NaNGrossMarginSlipsThrough | Metrics.CurrentGrossMargin |
| market_scanner.py:65 | `now - updated_at < timedelta(days=0)` | A window of 0 and an `updated_at` one microsecond after `now` (a store clock ahead of the scanner's). The age is negative, so the record is reused, although line 29 says 0 forces a fresh download. | A window of 0 never reuses. | not executed | Findings.ZeroWindowReusesFutureRecord | Freshness.Gate |
