# Short-term stock screener: indicators, score and ranking

This project models the screening core of a small stock screener. For each
ticker of a fixed universe, the screener:

- downloads about three months of daily bars;
- skips a ticker with fewer than 30 bars;
- computes six indicator columns (`calc_indicators`):
  - 5- and 20-bar simple moving averages of the close;
  - a 14-bar RSI built from the gains and losses of the close;
  - 5- and 20-bar moving averages of the volume;
  - the 5-bar percentage return;
- scores the latest row with four threshold rules worth 2, 2, 1 and 1 points (`score_stock`);
- keeps the tickers that score at least 3;
- orders the kept results by score, highest first.

The model is split into five modules:

- `Wrappers` holds `Option`.
- `Series` holds the sums, means and pandas `rolling(w).mean()` over a series whose entries may be undefined.
- `Indicators` holds the six columns and `CalcIndicators`.
- `Scoring` holds the rule table, the score as a specification function `Score`, and the imperative accumulator `ScoreStock`.
- `Screening` holds:
  - the imperative main loop, `ScreenTicker` for one pass and `CollectResults` for the whole loop;
  - the descending sort;
  - `Screen`.

Modelling choices:

- **Undefined values.** A pandas NaN is `None`. A rolling mean is undefined:
  - before its window is full;
  - when any entry of its window is undefined.

  Every comparison with an undefined value is false, so a rule that reads one awards nothing.
- **Numbers.** Prices and volumes are `real`.
- **RSI.** Its floating-point edge cases are written out:
  - an average loss of zero with a positive average gain gives 100, as the infinite ratio does;
  - both averages zero give 0/0, which is undefined.
- **Five-bar return on a zero base close.** In the source this is an infinity or a NaN. The model has no value there. No finite band contains it, so the score is the same.
- **Download.** `yf.download` becomes a parameter, `fetch: string -> seq<Bar>`. It gives a ticker's bars, oldest first.

The model follows the program:

- A comparison with an undefined value silently fails and raises nothing.
- The length guard is a flat 30 bars, whatever the longest window.
- The ranking is ordered by score only. The model's insertion sort keeps equal scores in visiting order; pandas' default `sort_values` promises no order among equal scores, so only the score order and the permutation are claimed as the program's behaviour.

## Model

| member | source | states |
|---|---|---|
| Series.Values | app.py:54-55 | the values of a window exist exactly when every entry is defined, and they are those entries |
| Series.RollingMeanAt | app.py:54-55 | a rolling mean at index i is undefined when i+1 < w, and defined exactly when the w trailing entries are all defined |
| Series.RollingNonNegative | app.py:60 | rolling means of non-negative entries are non-negative wherever defined |
| Series.RollingMeanZeroIff | app.py:60 | over a full window of defined non-negative entries the mean is defined, and it is zero exactly when every entry is zero |
| Series.RollingMeanOfValues | app.py:54-55 | over defined values the rolling mean at i is the arithmetic mean of the w values ending at i |
| Series.RollingMeanExample | app.py:54 | closes 10, 12, 14, 16, 18 with a window of 5 give 14 at the last bar |
| Series.RollingPrefix | app.py:54-55 | the rolling mean at i is the same on every prefix of the series that contains i |
| Series.MeanBelowTailMean | app.py:54-55 | a front of values below x followed by a tail of values at least x has a mean below the tail's mean |
| Indicators.DeltaTelescopes | app.py:57 | `diff()` is undefined at the first bar, and the closes are recovered from it: the close at bar i is the first close plus the sum of the defined steps up to i |
| Indicators.GainOf | app.py:58 | the clipped gain is defined exactly when the step is, and is the larger of the step and zero |
| Indicators.LossOf | app.py:59 | the clipped loss is defined exactly when the step is, and is the larger of the negated step and zero |
| Indicators.GainLossColumns | app.py:57-59 | the gain and loss columns are undefined at the first bar; at every later bar both are non-negative, one of them is zero, and gain minus loss is the change of the close |
| Indicators.GainLossSplit | app.py:57-59 | gain and loss are defined with the step; both are non-negative; gain minus loss is the step; a rising step has no loss and a falling step no gain |
| Indicators.AverageGain | app.py:60 | the 14-bar mean gain has one entry per bar and is never negative where defined |
| Indicators.AverageLoss | app.py:60 | the 14-bar mean loss has one entry per bar and is never negative where defined |
| Indicators.RsiColumnBounds | app.py:57-61 | the RSI column is undefined at the first 14 bars and lies within [0, 100] wherever defined |
| Indicators.RsiOf | app.py:60-61 | the RSI is defined exactly when both averages are and they are not both zero; it lies in [0, 100]; with a positive average loss it is below 100 and equals 100·g/(g+l); with a zero average loss it is 100 |
| Indicators.ReturnAt | app.py:66 | the return at bar i is defined exactly when n earlier bars exist and the base close is non-zero, and then it gives the close back from the base close: base·(1 + r/100) = close |
| Indicators.ReturnSign | app.py:66 | on a positive base close the return is positive exactly when the close rose |
| Indicators.ReturnScaleInvariant | app.py:66 | scaling every close by one positive constant leaves every return unchanged |
| Indicators.RowAt | app.py:53-67 | one row of `calc_indicators`: every column read at bar i (no contract of its own; its definedness is IndicatorsDefinedness and its independence of later bars RowAtPrefix) |
| Indicators.CalcIndicators | app.py:53-67 | every indicator column has the length of the input |
| Indicators.StepsFlatIffConstant | app.py:57 | a run of closes has only zero steps exactly when all of it equals its last close |
| Indicators.RsiUndefinedIffFlat | app.py:57-61 | with a full window the RSI is undefined exactly when the last fifteen closes are all equal |
| Indicators.IndicatorsDefinedness | app.py:53-67 | the averages are defined from bars 4 and 19 on; the return from bar 5 on, where the base close is non-zero; the RSI is undefined before bar 14 and afterwards only on a flat stretch |
| Indicators.GuardedLastRow | app.py:53-67 | with 30 bars or more, every column the scoring reads is defined at the last bar, except a return on a zero base close and the RSI of a flat stretch |
| Indicators.RisingSeriesCross | app.py:54-55 | on a strictly rising series the mean of the last 5 closes is above the mean of the last 20 |
| Indicators.RisingLossesVanish | app.py:59-60 | on a strictly rising series the last average loss is 0 |
| Indicators.RisingGainsPositive | app.py:58-60 | on a strictly rising series the last average gain is positive |
| Indicators.RisingSeriesRsi | app.py:60-61 | on a strictly rising series the last RSI is exactly 100 |
| Indicators.LastRowPriceColumns | app.py:54-61 | once the slow window is full, the last SMA5 and SMA20 are the means of the last 5 and 20 closes, and the last RSI is the RSI column at the last bar |
| Indicators.RisingSeries | app.py:53-67 | on a strictly rising series of 20 bars or more, SMA5 is above SMA20 at the last bar and the RSI is 100 |
| Indicators.LiftedRollingPrefix | app.py:54-55 | a moving average at bar i is the same on every prefix holding bar i |
| Indicators.AveragesPrefix | app.py:57-60 | the mean gain and mean loss at bar i are the same on every prefix holding bar i |
| Indicators.RsiPrefix | app.py:57-61 | the RSI at bar i is the same on every prefix holding bar i |
| Indicators.AveragesOfValuesPrefix | app.py:54-55 | both moving averages of a column at bar i are the same on every prefix holding bar i |
| Indicators.RowAtPrefix | app.py:53-67 | the whole indicator row at bar i is the same on every prefix holding bar i |
| Indicators.NoLookAhead | app.py:53-67 | the indicators at bar i do not depend on any later bar |
| Scoring.Greater | app.py:71-75 | a `>` comparison holds only when both sides are defined |
| Scoring.Within | app.py:73-77 | a band test holds only when the value is defined and the band is not empty |
| Scoring.Score | app.py:69-79 | the score is the sum of what the four rules award, each rule on its own |
| Scoring.ScoreRange | app.py:69-79 | the score lies in 0..6 |
| Scoring.RuleIndependence | app.py:71-78 | when only one rule's verdict can differ between two rows, their scores differ by exactly that rule's award; flipping it on adds its weight (2, 2, 1 or 1) and leaving it alone changes nothing |
| Scoring.UndefinedAwardsNothing | app.py:71-78 | a rule that reads an undefined indicator awards 0 points |
| Scoring.ReachesThreeIff | app.py:69-79 | the score reaches 3 exactly when both two-point rules hold, or one of them holds together with a one-point rule |
| Scoring.RisingSeriesRules | app.py:71-74 | a strictly rising series earns the crossover points and misses the RSI band |
| Scoring.ScoreStock | app.py:69-79 | the accumulator returns the specified score of the last row, at most 6 |
| Screening.Evaluate | app.py:98-112 | a ticker yields an entry exactly when it has at least 30 bars and its last row scores at least 3; the entry carries the ticker, the score of the last row (in 3..6), and the last row's RSI and return |
| Screening.KeptMembers | app.py:105-106 | an entry is in the results exactly when some ticker's outcome is that entry |
| Screening.KeptSkip | app.py:99-105 | a skipped or dropped ticker leaves the results unchanged |
| Screening.KeptAppend | app.py:105-112 | a kept ticker appends its entry at the end of the results |
| Screening.KeptNoneIsEmpty | app.py:97-112 | when no ticker is kept the results are empty |
| Screening.Insert | app.py:114 | inserting an entry adds that one entry and nothing else, and keeps a list in non-increasing score order in that order |
| Screening.SortByScore | app.py:114 | the ranking is in non-increasing score order and holds the results, each as often (equal scores stay in visiting order, which pandas does not promise) |
| Screening.QualifyingMembers | app.py:97-112 | an entry is among the results exactly when some visited ticker produced it |
| Screening.RankedTickersEvaluated | app.py:97-114 | a ticker is in the ranking exactly when it is in the universe and yields an entry |
| Screening.RankedTickers | app.py:97-114 | a ticker is in the ranking exactly when it is in the universe, has at least 30 bars and scores at least 3 |
| Screening.ScreenTicker | app.py:98-112 | one pass of the loop body computes the specified fate of the ticker |
| Screening.CollectResults | app.py:94-112 | the loop's results list is the kept entries in visiting order |
| Screening.Screen | app.py:94-114 | the ranking is the sorted results, in non-increasing score order, a permutation of the results, every score in 3..6, and empty when nothing qualifies |
| Screening.AllShortQualifyNone | app.py:99-100 | when every series is shorter than 30 bars no ticker qualifies |
| Screening.FrameSortAsWritten | app.py:114 | the sort as written has a result exactly when the results list is not empty, and then it is the sorted results |
| Screening.NoHistoryCrashesAsWritten | app.py:114 | with no history for any ticker, the sort as written has no result |

## Left out

- The Streamlit page is presentation only and is not modelled: page setup, title, button, spinner, table display and slider.
- `yf.download` is a network call into a library that is not part of this model. It is the `fetch` parameter.
  - Its period of three months is not modelled.
  - Its progress flag is not modelled.
  - The shape of the frame it returns is not modelled.
- `get_sector_jp` and the `SECTOR_JP` dictionary are a network lookup with a catch-all fallback, so the entry has no sector field.
- `plot_chart` and the chart loop are matplotlib rendering, so they are not modelled.
- `ranking.head(top_n)` only feeds the chart selection, so it is not modelled.
- `round(…, 1)` of the RSI and the return at app.py:110-111 is left out: floating-point rounding is not modelled, so an entry carries the unrounded values.
- IEEE-754 arithmetic is replaced by exact `real` arithmetic. NaN and infinity only ever appear as the explicit `None` branches above.
- The open, high and low prices are not modelled, because no indicator reads them.
- Screening.SortByScore: breaks ties in visiting order, so `Screen`'s first clause fixes one order among equal scores. pandas' default `sort_values` does not promise it, so that order is one the program may produce, not one it guarantees.
- Indicators.ReturnAt: a zero base close gives no value (`None`) instead of an infinity or a NaN. It awards no point in either case.

## Findings

| source | as written | input that shows it | evidently intended | confidence | as-written member | corrected member |
|---|---|---|---|---|---|---|
| app.py:114 | `pd.DataFrame(results).sort_values("スコア", ...)` sorts a frame built from the results list. If no ticker qualified the list is empty, the frame has no score column, and the sort raises a KeyError. | every ticker's download is empty or shorter than 30 bars, or every score is below 3 (modelled as `fetch = t => []`) | an empty ranking when nothing qualifies | high, not executed | Screening.NoHistoryCrashesAsWritten | Screening.Screen |
