# StockSig analysis core in Dafny

StockSig is a stock technical-analysis tool. It downloads daily price bars into a
pandas frame and runs them through four stages:

1. **Indicators** (`analysis/indicators.py`). These are added to the frame in place:
   - 20/50-bar simple moving averages and 12/26-span exponential moving averages;
   - a 14-bar RSI;
   - 20-bar Bollinger bands, two standard deviations wide;
   - MACD with a 9-span signal line and its histogram;
   - Fibonacci retracement levels, computed on a copy of the frame.
2. **Chart patterns** (`analysis/patterns.py`). Detectors scan 30-bar windows
   for head-and-shoulders, double tops and bottoms, and ascending, descending
   and symmetrical triangles. Each writes a marker column. A centred 20-bar
   rolling extreme finds support and resistance levels.
3. **Signals** (`analysis/signals.py`). Six sub-signals are computed per bar:
   moving averages, MACD, RSI, Bollinger, patterns and support/resistance.
   They are weighted into a composite score, and the score becomes a
   Buy (1), Sell (-1) or Hold (0) decision. `explain_signal` describes the
   decision for one date.
4. **Backtest** (`analysis/backtest.py`). Decisions are shifted by one bar and
   accumulated into a position. The position is valued against cash paid with
   commission. The run reports return, maximum drawdown, Sharpe ratio, trade
   counts and success rates.

The model has one Dafny module per source file. A module `Common` holds the shared
vocabulary:
- `Option` stands for a pandas cell that may be NaN;
- `Result` stands for an operation that may raise;
- sum, mean, max/min and first-index argmax/argmin are as numpy computes them.

Prices are `real`. A NaN cell is `None`, and pandas comparisons with NaN are false
(`Signals.Gt`, `Lt`, `Ge`, `Le`).

The source's form is kept:
- Indicators: the `add_*` steps mutate a frame, so they are methods of a class
  `Indicators.Frame` whose column fields they reassign. Each method is specified by the
  pure column functions (`RollingMean`, `Ema`, `Rsi`, `Band`, `MacdOf`).
- Patterns: each detector allocates a zero `array` and writes markers while
  scanning. Each is a method with a loop, proved equal to a declarative marker column
  (`DoubleMarkers`, `TriangleMarkers`) whose properties are lemmas.
  - `np.polyfit(range(n), ys, 1)[0]` is modelled by its closed form,
    `(12·Σk·y_k − 6(n−1)·Σy_k) / (n(n²−1))`.
  - `LeastSquaresSlopeOfLine` proves that this form recovers the slope of points on
    a line, and `NormalEquations` proves that, with the matching intercept, it
    satisfies the least-squares normal equations, which determine the fit.
- Signals: the generator is a class that caches its signal table.
  - A row is computed by a method that applies the masked overwrites in source
    order. It is proved equal to the declarative `SignalsOf`.
  - The pattern sub-signal loops over the bullish and bearish column lists.
- Backtest: a pure column pipeline (`Shifted`, `CumSum`, `Diff`, `CumMax`) inside a
  class `Backtester` that caches its last performance.

Behaviour of the code as written, proved in the model:
- The head-and-shoulders "head" is the maximum of the whole window, so it always
  coincides with one shoulder.
  - The strict test "both shoulders below the head" can therefore never hold
    (`Patterns.HeadShouldersNeverFires`), and the detector's column is all zeros.
  - When the head is the left shoulder, `low[left_idx:head_idx]` is empty, and
    numpy's `.min()` raises. The model returns an error at the first such scan
    position (`Patterns.DetectHeadShoulders`, `Patterns.NecklineNonEmptyIff`).
  - That error stops `detect_all_patterns` as a whole.
- The shifted signal is NaN at row 0, so the position is NaN there. Its `diff()` is
  NaN at rows 0 and 1.
  - The position taken at row 1 from the first decision is never paid for
    (`Backtest.CashIgnoresFirstDecision`).
  - A lone first buy therefore adds a whole close price to equity
    (`Backtest.FreeFirstPosition`).
- Success rates compare each trade's close with the close five *trades* later
  (`shift(-5)` on the selected rows), not five bars later. The last five trades
  always count as failures (`Backtest.SuccessRateBounds`).
- The composite score ranges over [-13, 13], and 13 is reached
  (`Signals.CompositeBounds`, `Signals.CompositeBoundAttained`). The pattern
  sub-signal alone ranges over [-3, 3].
- A symmetrical triangle is scanned only as a bullish pattern. Its -1 (bearish
  breakout) never lowers the pattern signal (`Signals.TriangleSymBearishIgnored`).
- RSI is 0, not 50, on a flat or falling series. This is because the loss average
  gets a 1e-10 guard and the gain average is 0 (`Indicators.RsiFlatSeriesIsZero`,
  `Indicators.RsiZeroWithoutGains`).
- The position's `diff()` keeps its sign before it is multiplied by
  `(1 + commission)`. A sell therefore receives close × (1 + commission): the
  commission is credited on sells rather than charged (`Backtest.CashStep`,
  `Backtest.SellCreditsCommission`).

## Model

| member | source | states |
|---|---|---|
| Common.ArgMaxIsFirstMax | analysis/patterns.py:37-38 | `np.argmax` of a slice holds its largest element, and every earlier element of the slice is strictly smaller (first occurrence) |
| Common.ArgMinIsFirstMin | analysis/patterns.py:83-84 | `np.argmin` of a slice holds its smallest element, and every earlier element is strictly larger |
| Common.MeanBounds | analysis/indicators.py:19 | a mean lies between any lower and upper bound of its elements |
| Indicators.RollingMean | analysis/indicators.py:19-20 | one average per row; its values are stated by RollingMeanStartsAtFirst and RollingMeanWithinWindow |
| Indicators.Ema | analysis/indicators.py:21-22 | one average per row; its values are stated by EmaWithinPrefixRange |
| Indicators.Trailing | analysis/indicators.py:19 | a `min_periods=1` window at row t holds the last min(t+1, w) prices ending at row t |
| Indicators.RollingMeanStartsAtFirst | analysis/indicators.py:19-20 | the first simple moving average equals the first close |
| Indicators.RollingMeanWithinWindow | analysis/indicators.py:19-20 | each simple moving average lies between the smallest and largest close of its window |
| Indicators.Alpha | analysis/indicators.py:21-22 | the smoothing factor 2/(span+1) lies in (0, 1] |
| Indicators.EmaWithinBounds | analysis/indicators.py:21-22 | an `adjust=False` exponential average stays within any bounds of the prices seen so far |
| Indicators.EmaWithinPrefixRange | analysis/indicators.py:21-22 | each EMA value lies between the minimum and maximum close up to its row |
| Indicators.Gains | analysis/indicators.py:28-29 | positive price changes, 0 elsewhere including the undefined first difference; never negative |
| Indicators.Losses | analysis/indicators.py:28-30 | negated negative price changes, 0 elsewhere; never negative |
| Indicators.RsiOfRange | analysis/indicators.py:33-34 | 100 − 100/(1+rs) with the 1e-10 guard lies in [0, 100) and is 0 when the average gain is 0 |
| Indicators.RollingMeanNonNegative | analysis/indicators.py:31-32 | rolling averages of non-negative gains or losses are non-negative |
| Indicators.Rsi | analysis/indicators.py:26-35 | one RSI value per row |
| Indicators.RsiInRange | analysis/indicators.py:26-35 | every RSI value lies in [0, 100) |
| Indicators.RsiZeroWithoutGains | analysis/indicators.py:28-34 | with no rise up to row t, the RSI at t is exactly 0 |
| Indicators.RsiFirstRowIsZero | analysis/indicators.py:28-34 | the first RSI value is 0 |
| Indicators.RsiFlatSeriesIsZero | analysis/indicators.py:28-34 | a constant series has RSI 0 throughout |
| Indicators.RollingStd | analysis/indicators.py:41 | one deviation cell per row; where it is defined is stated by BollingerBandsSymmetric |
| Indicators.Band | analysis/indicators.py:42-43 | one band cell per row |
| Indicators.Difference | analysis/indicators.py:52-54 | one cell per row, and adding back the subtrahend gives the minuend |
| Indicators.BollingerBandsSymmetric | analysis/indicators.py:38-44 | upper and lower bands are defined exactly from row 1, sit 2 deviations either side of the middle band, and bracket it |
| Indicators.MacdRelations | analysis/indicators.py:52-54 | MACD line = EMA12 − EMA26, histogram = line − signal, and the signal EMA starts at the line |
| Indicators.FibonacciLevels | analysis/indicators.py:58-73 | one cell of levels per row |
| Indicators.FibonacciOrdered | analysis/indicators.py:58-73 | levels undefined in the first w−1 rows; fib_0/fib_1 are the rolling high/low and bound the window; 0.5 is the midpoint; levels descend from fib_0 to fib_1 |
| Indicators.Frame.constructor | analysis/indicators.py:7-8 | a frame holds the price columns and no indicator column |
| Indicators.Frame.AddMovingAverages | analysis/indicators.py:16-23 | sets sma_20, sma_50, ema_12, ema_26 to the rolling means and EMAs of the close; nothing else changes |
| Indicators.Frame.AddRsi | analysis/indicators.py:26-35 | sets rsi_14 to the 14-bar RSI of the close; nothing else changes |
| Indicators.Frame.AddBollingerBands | analysis/indicators.py:38-44 | sets the middle band to the 20-bar mean and the bands to middle ± 2·std |
| Indicators.Frame.AddMacd | analysis/indicators.py:47-55 | recomputes all four moving averages when either EMA column is missing and leaves them unchanged otherwise, then sets the MACD line, signal and histogram from the EMA columns |
| Indicators.Frame.CalculateAllIndicators | analysis/indicators.py:7-13 | after the four steps every indicator column is the function of the close it names; prices unchanged |
| Patterns.Zeros | analysis/patterns.py:31 | `np.zeros(n)`: n cells, all 0 |
| Patterns.LeftIdx | analysis/patterns.py:37-38 | the left shoulder index lies in [i−w, i) |
| Patterns.HeadIdx | analysis/patterns.py:41-42 | the head index lies in [i−w, i+w) |
| Patterns.RightIdx | analysis/patterns.py:45-46 | the right shoulder index lies in [i, i+w) |
| Patterns.HeadIsHigherShoulder | analysis/patterns.py:37-46 | the head is the larger shoulder; its index is the left one when the left is not lower, else the right one |
| Patterns.NecklineNonEmptyIff | analysis/patterns.py:49 | the neckline slice is non-empty exactly when the right shoulder is strictly higher |
| Patterns.HeadShouldersNeverFires | analysis/patterns.py:52-56 | the confirmation condition holds at no position, for any prices |
| Patterns.MarkHeadShouldersAt | analysis/patterns.py:36-56 | one iteration reports an empty neckline exactly when head index ≤ left index and never writes a marker |
| Patterns.DetectHeadShoulders | analysis/patterns.py:29-58 | succeeds exactly when every scan position has a non-empty neckline, then returns all zeros; otherwise fails at the first empty one |
| Patterns.FirstExtremeIdx | analysis/patterns.py:71-84 | the first peak (trough) index lies in the left half [i−w, i) |
| Patterns.SecondExtremeIdx | analysis/patterns.py:73-86 | the second peak (trough) index lies in the right half [i, i+w) |
| Patterns.DoubleMarkersBefore | analysis/patterns.py:69-92 | the marker column after the scan positions below a bound has one cell per bar |
| Patterns.DoubleMarkers | analysis/patterns.py:61-94 | the full scan's marker column has one cell per bar |
| Patterns.DoubleMarkersBeforeSound | analysis/patterns.py:69-92 | every cell holds 0 or the kind's marker, and a marker sits only at the second extreme of a confirming position |
| Patterns.DoubleMarkersBeforeComplete | analysis/patterns.py:69-92 | every confirming position's second extreme holds the marker |
| Patterns.DoubleMarkersStep | analysis/patterns.py:69-92 | one scan position changes at most the cell of its second extreme |
| Patterns.MarkDoubleAt | analysis/patterns.py:70-92 | one iteration writes the marker at the second extreme exactly when the 2%, between-extreme and distance tests pass |
| Patterns.ScanDoubleAt | analysis/patterns.py:69-92 | after position i the array equals the declarative column through i |
| Patterns.DetectDoubleTopBottom | analysis/patterns.py:61-94 | returns the declarative double-top (−1) / double-bottom (+1) marker column |
| Patterns.DoubleMarkersPlacement | analysis/patterns.py:61-94 | a cell is non-zero exactly when some scan position confirms a formation ending there; values are 0 or the marker |
| Patterns.DoubleMarkersShortSeries | analysis/patterns.py:69 | a series of at most 2w bars has no scan position and an all-zero column |
| Patterns.EdgeCount | analysis/patterns.py:112-118 | `[:5]` and `[-5:]` take min(5, n) elements, non-empty for a non-empty span |
| Patterns.LeastSquaresSlopeOfLine | analysis/patterns.py:111-123 | the degree-1 least-squares slope of points on a line a + b·k is b |
| Patterns.NormalEquations | analysis/patterns.py:111-123 | the fitted line (with its intercept) satisfies the least-squares normal equations: the residuals sum to zero and are orthogonal to k |
| Patterns.TriangleMarkersBefore | analysis/patterns.py:105-126 | the marker column after the scan positions below a bound has one cell per bar |
| Patterns.TriangleMarkers | analysis/patterns.py:97-128 | the full scan's marker column has one cell per bar |
| Patterns.TriangleMarkersStep | analysis/patterns.py:105-126 | one scan position decides exactly bar i+w |
| Patterns.AscendingOnLinearLows | analysis/patterns.py:109-113 | when the window's lows lie on a line of slope b, the ascending test fires exactly when b > 0 and the last and first five highs' maxima differ by under 1% of the top; falling or flat lows never fire |
| Patterns.DescendingOnLinearHighs | analysis/patterns.py:115-119 | when the window's highs lie on a line of slope b, the descending test fires exactly when b < 0 and the last and first five lows' minima differ by under 1% of the bottom; rising or flat highs never fire |
| Patterns.SymmetricalOnLinearBounds | analysis/patterns.py:121-126 | when highs and lows each lie on a line, the symmetrical test fires exactly when the highs' line falls, the lows' line rises and the last gap is under 70% of the first |
| Patterns.MarkTriangleAt | analysis/patterns.py:106-126 | one iteration writes the kind's value at bar i+w when its test fires, else leaves the array unchanged |
| Patterns.DetectTrianglePatterns | analysis/patterns.py:97-128 | returns the declarative triangle marker column |
| Patterns.TriangleMarkersPlacement | analysis/patterns.py:97-128 | a marker sits at bar j iff j ≥ 2w and position j−w fires; ascending marks 1, descending −1, symmetrical 1 iff the close is above the last midpoint |
| Patterns.Pivots | analysis/patterns.py:136-137 | the centred rolling extreme column has one cell per bar |
| Patterns.CandidatesAreOwnPivots | analysis/patterns.py:140-144 | a value is a candidate iff some bar has that value and equals its centred rolling extreme |
| Patterns.DedupProperties | analysis/patterns.py:140-144 | `drop_duplicates` keeps the same values, each once, starting with the first |
| Patterns.RetainedMembers | analysis/patterns.py:141-145 | a value is retained iff it exceeds (resistance) or undercuts (support) its predecessor by more than threshold × itself |
| Patterns.DedupKeepsFirstOrder | analysis/patterns.py:140-144 | `drop_duplicates` (keep='first') lists the kept values in the order of their first occurrences, which the following `diff()` filter compares |
| Patterns.FirstIdx | analysis/patterns.py:140-144 | the index of a value's first occurrence: it holds the value and no earlier cell does |
| Patterns.LevelsAreFilteredPivots | analysis/patterns.py:136-145 | a level is a retained distinct candidate, is the value of a bar equal to its rolling extreme, and the first candidate is never a level |
| Patterns.MarkLevel | analysis/patterns.py:151-155 | `df.loc[col == level, target] = level` has one cell per bar |
| Patterns.IdentifySupportResistance | analysis/patterns.py:131-157 | a bar's resistance (support) is its high (low) when that is a level, NaN otherwise |
| Patterns.DetectAllPatterns | analysis/patterns.py:7-26 | fails exactly when head-and-shoulders fails; otherwise every column is its detector's declarative column |
| Signals.Signals | analysis/signals.py:9-73 | one signal row per bar |
| Signals.PatternSum | analysis/signals.py:37-47 | the loops count the present bullish columns at +1 minus the present bearish columns at −1 |
| Signals.RowSignals | analysis/signals.py:11-70 | the masked overwrites, in source order, give the declarative row of sub-signals, composite and decision |
| Signals.MaSignalMeaning | analysis/signals.py:15-19 | 1 exactly when both fast averages are above the slow ones, −1 exactly when both are below |
| Signals.MacdSignalIsSign | analysis/signals.py:22-24 | the MACD sub-signal is the sign of macd − signal line, 0 when either is NaN |
| Signals.RsiSignalMeaning | analysis/signals.py:27-29 | 1 exactly when RSI < 30, −1 exactly when RSI > 70 |
| Signals.BbSignalMeaning | analysis/signals.py:32-34 | −1 exactly above the upper band, 1 exactly below the lower band and not above the upper one |
| Signals.SrSignalPrecedence | analysis/signals.py:50-52 | resistance overrides support; a NaN level never fires |
| Signals.PatternSignalBounds | analysis/signals.py:37-47 | the pattern sub-signal lies in [−3, 3] |
| Signals.TriangleSymBearishIgnored | analysis/signals.py:38-47 | a symmetrical triangle's −1 does not change the pattern sub-signal |
| Signals.CompositeBounds | analysis/signals.py:55-65 | every sub-signal is in range and the composite lies in [−13, 13] |
| Signals.CompositeBoundAttained | analysis/signals.py:55-70 | some bar scores exactly 13 and is a buy |
| Signals.DecisionMeaning | analysis/signals.py:68-70 | Buy iff score ≥ 3, Sell iff score ≤ −3, Hold in between |
| Signals.DecisionMonotone | analysis/signals.py:68-70 | a higher score never gives a lower decision |
| Signals.LabelMeaning | analysis/signals.py:90 | "Buy", "Sell" and "Hold" name 1, −1 and everything else |
| Signals.IndexOf | analysis/signals.py:84-87 | a known date is looked up at its first occurrence in the index |
| Signals.ExplainLookup | analysis/signals.py:80-90 | no date means the last date; an unknown date is the "no data" error; a known one explains the signal of its row |
| Signals.ActivePhrasesSound | analysis/signals.py:183-187 | every phrase belongs to an active pattern column |
| Signals.ActivePhrasesComplete | analysis/signals.py:183-187 | every active pattern column contributes its phrase |
| Signals.ActivePhrasesEmpty | analysis/signals.py:183-192 | there are no phrases exactly when no pattern column is active |
| Signals.MaStatusMeaning | analysis/signals.py:103-112 | the status value is the MA sub-signal, and the single status text is the bullish one exactly when both fast averages are above the slow ones, the bearish one exactly when both are below, and the neutral one otherwise |
| Signals.MacdStatusMeaning | analysis/signals.py:114-132 | the status value is the MACD sub-signal; the crossover text is bullish, bearish or neutral exactly as MACD is above, below or neither against its signal line; with a histogram column a second text says "above zero" exactly when the histogram is defined and positive, "below zero" otherwise (NaN included) |
| Signals.PatternStatusMeaning | analysis/signals.py:171-194 | the pattern status lists the active patterns' phrases, or only the no-pattern text when none is active |
| Signals.SignalGenerator.constructor | analysis/signals.py:5-7 | a new generator has no cached signals |
| Signals.SignalGenerator.GenerateSignals | analysis/signals.py:9-73 | returns the declarative signal table and caches it |
| Signals.SignalGenerator.ExplainSignal | analysis/signals.py:75-101 | generates the signals first when none are cached, then returns the declarative explanation |
| Backtest.Shifted | analysis/backtest.py:18 | row 0 has no decision; row t carries row t−1's |
| Backtest.CumSum | analysis/backtest.py:22 | NaN cells stay NaN; others hold the running sum of defined cells |
| Backtest.Diff | analysis/backtest.py:27 | NaN at row 0 and wherever a neighbour is NaN |
| Backtest.CumMax | analysis/backtest.py:36 | NaN cells stay NaN; others hold the running maximum of defined cells |
| Backtest.Positions | analysis/backtest.py:21-22 | one position per row; its values are stated by PositionIsPrefixSum |
| Backtest.Holdings | analysis/backtest.py:26 | one holdings cell per row |
| Backtest.CashFlows | analysis/backtest.py:27 | one cash-flow cell per row |
| Backtest.Cash | analysis/backtest.py:27 | one cash cell per row; its values are stated by CashClosedForm |
| Backtest.Total | analysis/backtest.py:28 | one equity cell per row; its values are stated by TotalIsCashPlusHoldings |
| Backtest.Drawdown | analysis/backtest.py:36-37 | one drawdown cell per row; its values are stated by DrawdownBounds |
| Backtest.ShiftedPrefixSum | analysis/backtest.py:18-22 | the running sum of the shifted column through t is the sum of decisions before t |
| Backtest.PositionIsPrefixSum | analysis/backtest.py:18-22 | the position is NaN at row 0 and the sum of the earlier decisions after it |
| Backtest.PositionsIgnoreLaterDecisions | analysis/backtest.py:17-22 | decisions from row t on do not change positions up to row t |
| Backtest.TradeIsPreviousDecision | analysis/backtest.py:27-48 | the position change at row t is decision t−1 from row 2 on, NaN (trade 0) at rows 0 and 1 |
| Backtest.TradesAreUnit | analysis/backtest.py:48 | decisions in {−1, 0, 1} trade −1, 0 or 1 unit |
| Backtest.SpentIsCharged | analysis/backtest.py:27 | the cumulative cash flow is the ledger of decision × close × (1+commission) from row 2 on |
| Backtest.CashClosedForm | analysis/backtest.py:27 | cash is NaN at rows 0 and 1 and the initial capital minus the ledger afterwards |
| Backtest.CashIgnoresFirstDecision | analysis/backtest.py:18-27 | cash does not depend on the decision of row 0 |
| Backtest.HoldingsAt | analysis/backtest.py:26 | holdings are the position times the close, NaN where the position is |
| Backtest.CashStep | analysis/backtest.py:27 | from row 3 on, cash moves by minus the previous decision × close × (1 + commission), sign kept |
| Backtest.SellCreditsCommission | analysis/backtest.py:18-28 | decisions 0, −1, 0 leave equity at row 2 at initial + commission × close, above the initial capital whenever commission and close are positive |
| Backtest.TotalIsCashPlusHoldings | analysis/backtest.py:26-28 | equity is NaN at rows 0 and 1 and cash + position × close afterwards |
| Backtest.FreeFirstPosition | analysis/backtest.py:18-28 | a lone buy at row 0 ends with equity = capital + last close, no cost charged |
| Backtest.TotalReturnSign | analysis/backtest.py:32 | with positive capital the return is positive exactly when final value exceeds it, 0 exactly when equal |
| Backtest.MaxDefinedIsMax | analysis/backtest.py:38 | `max()` skipping NaN is defined iff some cell is, is a cell and bounds every defined cell |
| Backtest.PeakAtLeastTotal | analysis/backtest.py:36 | the running maximum is never below the equity it follows |
| Backtest.DrawdownBounds | analysis/backtest.py:36-37 | under a positive peak the drawdown is defined, ≥ 0, and ≤ 1 while equity is non-negative |
| Backtest.MaxDrawdownIsLargest | analysis/backtest.py:36-38 | the maximum drawdown percentage bounds every defined drawdown × 100 |
| Backtest.SharpeRatio | analysis/backtest.py:41-45 | 0 with at most one return or zero deviation, the quotient otherwise |
| Backtest.Trades | analysis/backtest.py:48 | one trade per row |
| Backtest.TradeRows | analysis/backtest.py:49-50 | the selected rows are rows of the frame |
| Backtest.TradeRowsExact | analysis/backtest.py:49-50 | a row is a buy (sell) row iff its trade is positive (negative) |
| Backtest.TradeRowsIncreasing | analysis/backtest.py:49-50 | the selected rows are listed in increasing order |
| Backtest.TradeCountsPartition | analysis/backtest.py:48-50 | buys + sells = number of non-zero trades |
| Backtest.SuccessesBound | analysis/backtest.py:53-56 | at most min(m, n−5) successes among the first m of n trades, none when n < 5; and counting past the first n−5 trades adds none, so none of the last five trades succeeds |
| Backtest.SuccessRateBounds | analysis/backtest.py:53-69 | each rate lies in [0, 100], is 0 with at most five trades, and at most (n−5)/n × 100 |
| Backtest.Backtester.constructor | analysis/backtest.py:7-10 | a new backtester has no performance |
| Backtest.Backtester.RunBacktest | analysis/backtest.py:12-74 | returns the declarative run (an error on an empty frame) and caches its performance when it succeeds |

## Left out

- Data download, the CLI, widgets and plotting (`analysis/data_fetcher.py`, `analysis/core.py`, `interface/`, `utils/plotting.py`) are not part of this model.
- Floating point is modelled as exact reals: rounding, overflow, NaN from 0/0 and infinities are not modelled. A division whose result pandas would make infinite or NaN is modelled as `None` (total return with zero capital, drawdown under a zero peak).
- Backtest.MaxDrawdownPct: a zero running peak gives a drawdown of +inf (negative equity) or NaN (zero equity) in pandas. A single +inf makes `drawdown.max()`, and so the maximum drawdown, infinite. The model's `None` cells are skipped by `MaxDefined`, so there the model reports the largest finite drawdown instead.
- The sample standard deviation (Bollinger `std()`) is a parameter `sd` over a window of two or more prices, because square roots are not modelled. `Indicators.RollingStd` states only where it is defined.
- Backtest.SharpeRatio: the returns' deviation and the mean/std·√252 quotient are parameters. The `returns` (`pct_change().fillna(0)`) column itself is not built, so only the guard of the Sharpe ratio is modelled.
- The annualized return (`** (252/len)`) is not modelled, because real powers with fractional exponents are not available.
- `round(composite_score, 2)` is dropped. The composite is always a multiple of 0.5, so rounding to two decimals leaves it unchanged.
- The RSI, Bollinger and support/resistance status texts of `explain_signal` are not modelled, because they are number formatting (`:.1f`, `:.2f`) of the row's values. The moving-average, MACD and pattern statuses are modelled.
- Dates are plain strings compared for equality; `pd.to_datetime` parsing and `strftime` formatting are not modelled. A date that occurs twice in the index differs: `.loc` then returns several rows and the truth test on the signal (analysis/signals.py:90) raises `ValueError`, while the model explains the first such row.
- Missing indicator columns in `generate_signals` (a KeyError in pandas) are not modelled: every bar carries every indicator cell, possibly NaN. Only the six pattern columns and `macd_hist` may be absent, as the source checks for them.
- Pandas index alignment between the price frame and the signal frame is not modelled: both are taken to share one index. Signals are modelled row by row, since every mask in `generate_signals` is element-wise.
- Prices in the pattern detectors are taken to be defined (no NaN highs or lows), since numpy's NaN propagation through `max`/`argmax` is not modelled.
- Indicators.Frame.AddBollingerBands: the bands are stated in terms of the parameter `sd`, so the model does not claim anything about the deviation's value.
