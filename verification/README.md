# Global scanner decision core, in Dafny

This project models the deterministic decision logic of `scanner.mjs`, the
market scanner that scores stocks and crypto pairs from price history, asks an
external judge for a verdict and pushes a notification. The network, file and
clock layers are stripped off. What remains is modelled and proved:

- **Indicators** (`indicators.dfy`), over exact reals:
  - `avg`, `std` (through its variance), `seriesEMA`, `rsi`, `atr`, `linSlope`
    and `pct`;
  - the loops are imperative methods, each proved against a specification
    function.
- **Feature builders** (`features.dfy`): `stockFeatures` and `cryptoFeatures`
  over the already-filtered numeric series.
  - A feature value is a JavaScript value (`js_values.dfy`): a number, NaN,
    `null` or `undefined`.
  - JavaScript's `>`, truthiness and `typeof … === "number"` are modelled
    exactly.
- **Pre-score** (`scoring.dfy`): the eight weighted rules of `preScore`,
  clamped to [0, 100].
- **Notification gate** (`notification.dfy`):
  - `inQuietHours`, with the hour as a parameter;
  - `maybePush`, as a `Notifier` class that owns the de-duplication state map.
    The current time and the success of the push request are parameters.
- **Headline list** (`headlines.dfy`): the headline format of `newsFor` and its
  de-duplicate-and-truncate loop.

The modules import one another in that order (`JsValues` → `Indicators` →
`Features` → `Scoring`; `Notification` and `Headlines` stand beside them).

Notes on the program as written:

- Every instrument whose data could be fetched is judged, once. There is no
  score gate and no cap on how many instruments are judged.
- The judge call has no retry: any non-OK answer is an error.
- A zero RSI, MACD line, MACD signal or slope counts as absent in the
  pre-score, through JavaScript truthiness. Unavailable values are not kept
  apart from zero.
- The two feature builders repeat the same computations in the source. The
  model shares them in one `TrendFeatures` function and proves how the two
  records relate.

## Model

| member | source | states |
|---|---|---|
| JsValues.NotANumberNeverGreater | scanner.mjs:171-178 | a NaN or undefined operand makes `>` false in both directions, so no rule fires on it |
| JsValues.NullComparesAsZero | scanner.mjs:175 | `null` compares as 0, which is why the proximity rule must test for `null` first |
| Indicators.Avg | scanner.mjs:36 | the mean of the empty list is 0, and the mean of n > 0 values times n is their sum |
| Indicators.AvgAtLeast | scanner.mjs:36 | the mean of a non-empty list is at least any lower bound of its elements |
| Indicators.AvgAtMost | scanner.mjs:36 | the mean of a non-empty list is at most any upper bound of its elements |
| Indicators.AvgOfNonNegative | scanner.mjs:36 | the mean of non-negative values is non-negative, and the mean of zeros (or of the empty list) is 0 |
| Indicators.VarianceNonNegative | scanner.mjs:37 | the quantity `std` takes the square root of is never negative |
| Indicators.Ema | scanner.mjs:38-41 | the EMA series has the input's length and starts at its first value |
| Indicators.SeriesEma | scanner.mjs:38-41 | the loop's output is the EMA series with factor `2/(n+1)` |
| Indicators.EmaRecurrence | scanner.mjs:38-41 | the EMA series has the input's length, starts at `arr[0]`, and each later value is `v*k + prev*(1-k)` |
| Indicators.EmaWithinBounds | scanner.mjs:38-41 | with `0 <= k <= 1`, every EMA value stays within any bounds of the input |
| Indicators.FastEmaLeadsOnRisingSeries | scanner.mjs:38-41 | on a non-decreasing series a faster EMA is between the slower one and the last value, and strictly above the slower one on a strictly increasing series |
| Indicators.Tail | scanner.mjs:112 | `slice(-n)` keeps the last n elements, or all of them when there are fewer or n is 0 |
| Indicators.TailOfTail | scanner.mjs:129 | slicing the last m of the last n elements (m ≤ n) is slicing the last m |
| Indicators.Highest | scanner.mjs:125 | `Math.max(...s)` of a non-empty list is an element and bounds every element |
| Indicators.Lowest | scanner.mjs:125 | `Math.min(...s)` of a non-empty list is an element and is below every element |
| Indicators.Pct | scanner.mjs:57 | a zero base gives 0; otherwise the result times the base is 100 times the change `a - b` |
| Indicators.PctSign | scanner.mjs:57 | for a positive base, the percentage change is negative or positive exactly when a is below or above b; a zero base gives 0 |
| Indicators.PctRecoversValue | scanner.mjs:57 | for a non-zero base, `b + b*pct(a,b)/100 = a`, so pct is the percentage change |
| Indicators.PctOfRatio | scanner.mjs:57 | for a non-zero base, `pct(a,b) = 100*(a/b) - 100` |
| Indicators.Differences | scanner.mjs:43 | the loop collects the consecutive differences `arr[i] - arr[i-1]` |
| Indicators.WilderAverageNonNegative | scanner.mjs:45-46 | Wilder smoothing of non-negative gains or losses stays non-negative, and of zeros is 0 |
| Indicators.RsiFromAverages | scanner.mjs:47 | the RSI lies in [0, 100); a zero loss average uses RS = 1e9; a zero gain average with losses gives 0 |
| Indicators.RsiOfAverages | scanner.mjs:44-47 | both averages are non-negative and the RSI is computed from them |
| Indicators.Rsi | scanner.mjs:42-47 | the method computes the specified RSI, and the result lies in [0, 100) |
| Indicators.RsiSaturatesWithoutLosses | scanner.mjs:47 | on a series that never falls the loss average is 0 and the RSI is `100 - 100/(1+1e9)`, above 50 |
| Indicators.RsiZeroWithoutGains | scanner.mjs:47 | on a series that never rises, with a non-zero loss average, the RSI is 0 |
| Indicators.TrueRange | scanner.mjs:50 | a bar's true range is a non-negative number when the bar has a high and a low, and NaN exactly when one of them is missing |
| Indicators.TrueRangeSeries | scanner.mjs:50 | the loop collects the true ranges of bars 1 to `close.length-1` |
| Indicators.SmoothValuesIsWilder | scanner.mjs:51 | smoothing values one at a time, with NaN propagating, gives NaN if any range is NaN and the Wilder average otherwise |
| Indicators.Atr | scanner.mjs:49-52 | the method computes the specified ATR |
| Indicators.AtrOf | scanner.mjs:49-52 | the ATR is always a number or NaN, never `null` or `undefined` |
| Indicators.AtrNaNExactlyOnMissingBars | scanner.mjs:49-52 | the ATR is NaN exactly when there are two or more closes and the highs or lows are shorter; otherwise it is a non-negative number, 0 for fewer than two closes |
| Indicators.LinSlope | scanner.mjs:53-55 | the method computes the least-squares slope of the last n points against 1..n, with a zero denominator replaced by 1 |
| Indicators.SumOfPositions | scanner.mjs:53 | the positions 1..n sum to n(n+1)/2 |
| Indicators.SquareDeviationPositive | scanner.mjs:54 | for two or more points the denominator is positive, so the `den||1` fallback is used only for fewer points |
| Indicators.SlopeOfLine | scanner.mjs:53-55 | points lying exactly on a line `c + s*x` have slope s |
| Indicators.SlopeOfConstant | scanner.mjs:53-55 | a constant series of any length has slope 0 |
| Features.LastValue | scanner.mjs:113 | `at(-1)` is the last element, and `undefined` exactly for an empty list |
| Features.VolumeSpike | scanner.mjs:128 | the volume spike is a number exactly when there is a last volume and both it and the 20-period average volume are non-zero; the number is the last volume as a multiple of that average, and `null` stands in otherwise |
| Features.RelativeStrength | scanner.mjs:131-137 | the corrected relative strength is a number exactly when both series have more than 20 points and both bases are non-zero, and `null` otherwise |
| Features.RelativeStrengthAsWritten | scanner.mjs:132-137 | as written, rs20 is only ever `null` or NaN, and it is `null` without a benchmark or with 20 closes or fewer |
| Features.CryptoFeatures | scanner.mjs:141-166 | the crypto record's price is the last close (`undefined` without closes), and it has no `atr14` and no `volSpike` |
| Features.StockAtr | scanner.mjs:123 | the stock ATR is `null` exactly when there are no highs or no lows |
| Features.StockFeatures | scanner.mjs:105-139 | the stock record's price is the last close, its ATR is `null` exactly when there are no highs or no lows, and its volume spike is that of the volumes |
| Features.BuiltAveragesUseLastCloses | scanner.mjs:112-117 | in both builders (here and at lines 143-147) the 20-, 50- and 200-period averages are the means of the last 20, 50 and 200 closes of the whole history |
| Features.StockExtendsCrypto | scanner.mjs:105-165 | apart from ATR and volume spike, the stock record is exactly the crypto record over the same closes and benchmark |
| Features.CryptoUsesLast220 | scanner.mjs:143 | the crypto record depends only on the last 220 closes |
| Features.StockUsesLast221 | scanner.mjs:123 | the stock record depends only on the last 221 closes |
| Features.BuiltRelativeStrength | scanner.mjs:131-137 | both builders set rs20 to the relative strength as written |
| Features.RelativeStrengthAsWrittenLosesValue | scanner.mjs:132-137 | as written, rs20 never compares above 0, and it is NaN wherever the intended value is a number |
| Features.RelativeStrengthCounterexample | scanner.mjs:134-135 | a series that doubles against a flat benchmark has intended relative strength 1, but rs20 as written is NaN |
| Features.RelativeStrengthComparesReturns | scanner.mjs:134-136 | the intended relative strength is positive exactly when the instrument's 20-period percentage return beats the benchmark's |
| Features.BandsBracketMean | scanner.mjs:124 | with a non-negative square root, the lower and upper Bollinger bands bracket the 20-period mean |
| Features.ProximityBounds | scanner.mjs:125-127 | the proximities are NaN for no closes and numbers otherwise; with positive extremes, the proximity to the high is ≤ 0 and to the low ≥ 0 |
| Features.RisingSeriesMacdPositive | scanner.mjs:118-120 | on a strictly increasing series the MACD line is positive |
| Scoring.Fires | scanner.mjs:171-178 | on numbers each rule is its plain comparison (price above each average, RSI strictly between 50 and 70, MACD line above signal, proximity above -1.5, slope above 0, volume spike above 1.4, rs20 above 0); the RSI, MACD and slope rules skip an exact 0, non-numbers never fire the last four, and a NaN or missing price fires no trend rule |
| Scoring.Score | scanner.mjs:170-179 | the score lies in [0, 90] and equals the raw sum whenever that sum is not negative |
| Scoring.Clamp | scanner.mjs:179 | the clamp lands in [0, 100] and leaves values already there unchanged |
| Scoring.PreScore | scanner.mjs:169-180 | the method computes the score of the rule table, and it lies in [0, 90] |
| Scoring.ScoreUnrolled | scanner.mjs:170-178 | the raw score is the sum of the eight rule contributions, in the program's order |
| Scoring.ScoreRange | scanner.mjs:170-179 | the raw sum is between -10 and 90, so the upper clamp never binds and the score is the sum cut off at 0 |
| Scoring.BelowTrendScore | scanner.mjs:171 | a price not above the 200-period average caps the score at 60, and gives 0 when no other rule fires |
| Scoring.ZeroCountsAsMissing | scanner.mjs:173-176 | a zero RSI, MACD line, MACD signal or slope scores as if it were `null` |
| Scoring.NonNumbersAddNothing | scanner.mjs:177-178 | any non-number volume spike or rs20 (null, undefined, NaN) scores as if it were absent |
| Scoring.MoreSignalsScoreHigher | scanner.mjs:170-179 | a record on which more rules fire never scores lower |
| Scoring.SameRulesSameScore | scanner.mjs:170-179 | two records on which the same rules fire have the same score |
| Scoring.ScoreByRules | scanner.mjs:171-178 | without outperformance the score is at most 85, and also without a volume surge at most 75; the three trend rules together give at least 50 |
| Scoring.BuiltRecordsScoreCap | scanner.mjs:178 | because rs20 never fires as written, built stock records score at most 85 and built crypto records at most 75 |
| Scoring.RisingWindowScoresAtLeast50 | scanner.mjs:171-175 | a record whose price, averages and proximity come from the last 220 of a strictly increasing history of two or more closes scores at least 50 |
| Scoring.RisingSeriesScoresAtLeast50 | scanner.mjs:105-180 | both builders' records of a strictly increasing history of two or more closes score at least 50 |
| Scoring.OutperformingOnIntendedStrength | scanner.mjs:178 | with the intended relative strength, the outperformance rule fires exactly when the instrument's return beats the benchmark's |
| Scoring.CorrectedRecordsRewardOutperformance | scanner.mjs:131-137 | the corrected stock and crypto records fire the outperformance rule exactly when the instrument beats its benchmark |
| Notification.InQuietHours | scanner.mjs:58-59 | the end hour is never quiet, the start hour is quiet unless start equals end, and equal start and end give no quiet hours |
| Notification.QuietHoursAroundTheClock | scanner.mjs:58-59 | for clock hours, an hour is quiet exactly when it lies in the run from start up to end, counted around the clock |
| Notification.FractionalQuietStart | scanner.mjs:58-59 | a fractional start such as 22.5 makes 23 o'clock quiet and 22 o'clock not |
| Notification.DefaultQuietHours | scanner.mjs:16-17 | with the default window from 23 to 6, hours 23 and 2 are quiet and hours 6 and 10 are not |
| Notification.PushKey | scanner.mjs:217 | the state key is `pushed:` followed by the symbol |
| Notification.PushKeyInjective | scanner.mjs:217 | distinct symbols have distinct state keys |
| Notification.Gate | scanner.mjs:215-219 | a verdict gets through only if it asks for a push, scores at least the threshold, falls outside quiet hours and is past the cooldown |
| Notification.GateProceedsExactly | scanner.mjs:215-219 | the gate lets a verdict through if and only if all four conditions hold, with a missing score counting as 0 |
| Notification.Notifier.constructor | scanner.mjs:32 | the notifier starts from the loaded state, which is also the saved state |
| Notification.Notifier.MaybePush | scanner.mjs:214-223 | a stopped verdict or a failed push leaves the state and the saved file unchanged; a successful push records `now` under the symbol's key, changes nothing else and saves the map |
| Notification.ParseFailureNeverPushed | scanner.mjs:194 | the hold verdict the judge falls back to on an unreadable reply is never pushed |
| Notification.DedupeAfterPush | scanner.mjs:217-219 | after a push at time t, the same symbol is held back until the window has passed and goes through afterwards |
| Notification.OtherSymbolsUnaffected | scanner.mjs:221 | a push for one symbol does not change the gate's decision for any other symbol |
| Notification.DedupeExample | scanner.mjs:219 | with the six-hour default, a push verdict one hour after the last push is held back, and seven hours after it goes through |
| Notification.PushAdvancesLastPushed | scanner.mjs:219-221 | a push, which is only recorded after the gate let the verdict through past the cooldown test, records now as the symbol's last push; with a non-negative window that never moves it back in time; it adds only the symbol's key |
| Headlines.TitleKey | scanner.mjs:93 | the key is the longest prefix before the first ` — `, or the whole headline |
| Headlines.KeyOfFormattedHeadline | scanner.mjs:87 | a formatted headline whose title has no em dash has its title as key |
| Headlines.Uniq | scanner.mjs:92-93 | the kept headlines are no more than the input headlines, and the first headline is always kept |
| Headlines.Headlines | scanner.mjs:92-94 | the loop returns the de-duplicated headlines cut to the configured count, and no more than that count |
| Headlines.UniqKeys | scanner.mjs:93 | the kept headlines carry exactly the keys of all headlines |
| Headlines.UniqSubset | scanner.mjs:93 | every kept headline is one of the input headlines |
| Headlines.UniqDistinctKeys | scanner.mjs:93 | no two kept headlines share a key |
| Headlines.UniqIsFirsts | scanner.mjs:93 | the kept headlines are exactly those that are first of their key, in input order |
| Headlines.UniqIdempotent | scanner.mjs:92-93 | de-duplicating twice is de-duplicating once |
| Headlines.HeadlinesResult | scanner.mjs:92-94 | the list has at most the configured count, distinct keys and input headlines only; it is an in-order prefix of the first-of-key headlines, and it is full when there are enough keys |

## Left out

- Network and data sources: fetching charts, klines, fundamentals and RSS feeds, and parsing their responses (scanner.mjs:62-76, 86-90, 100-101, 226-240). The builders take the filtered numeric series as parameters.
- The benchmark loader (scanner.mjs:98-102) is left out; the benchmark is an optional series parameter.
- The judge and push requests (scanner.mjs:183-212). The judge is present only through its fallback verdict. The push result is a boolean parameter of `MaybePush`, so a push that throws is a call with `false`.
- `processStock`, `processCrypto`, `pRun` and `main` (scanner.mjs:243-290) are left out. They are asynchronous orchestration and a worker pool; concurrent access to the state map is not modelled.
- Configuration and environment parsing (scanner.mjs:13-28): the settings are a `Config` value of reals, with the program's defaults in `DefaultConfig`. A setting that `Number(...)` turns into NaN, which makes every comparison with it false, is not modelled. `MAX_HEADLINES` is a parameter of `Headlines`.
- Reading `state.json` is the `loaded` map of the `Notifier` constructor. Writing it is the `saved` field. Writing the reports is left out.
- The time zone conversion and `Date.now()` are parameters: the hour of day and the time in milliseconds.
- `num` (scanner.mjs:56) is left out: nothing in the program calls it.
- Floating point: all arithmetic is exact over reals, with no rounding, overflow or infinities. `Math.max` of an empty list (−Infinity) and `Math.min` of an empty list (+Infinity) appear only through `pct`, whose result is then NaN; the model gives NaN directly.
- Features.BandsBracketMean: the square root of `std` is a function parameter, so the model proves only the bracket property, not band values.
- Headlines.Headlines: a negative `MAX_HEADLINES` (scanner.mjs:20), with which `slice(0, -k)` drops the last k headlines instead of capping the list, is not modelled; the count is a natural number.
- Headlines.FormatHeadline: the replacement of `&amp;` by `&` in titles is not modelled; the title is taken as already unescaped.
- Notification.Gate: a non-numeric score other than null or undefined, such as a string, is not modelled; a score is a number, NaN, null or undefined.

## Findings

| source | as written | input that shows it | evidently intended | confidence | as-written member | corrected member |
|---|---|---|---|---|---|---|
| scanner.mjs:134-135 | `recent[-21]` and `benchSPY[-21]` (and `benchBTC[-21]`) read an array property named "-21", which is `undefined`. Both ratios are NaN, so rs20 is NaN whenever its branch runs and the +5 outperformance rule can never fire | 21 closes `1, …, 1, 2` against 21 flat benchmark closes: the instrument doubled, yet rs20 is NaN and scores nothing | the close 20 periods back, `recent.at(-21)`: rs20 = 2/1 − 1/1 = 1, which fires the rule | not executed; high | Features.RelativeStrengthCounterexample | Features.RelativeStrengthComparesReturns |

The builders `StockFeatures` and `CryptoFeatures` keep the behaviour as
written, so every score property holds for the program as it runs.
`BuiltRecordsScoreCap` shows the consequence: built stock records score at
most 85 and crypto records at most 75.

The corrected records `CorrectedStockFeatures` and `CorrectedCryptoFeatures`
use `RelativeStrength`. `CorrectedRecordsRewardOutperformance` proves that
their outperformance rule fires exactly when the instrument beats its
benchmark.
