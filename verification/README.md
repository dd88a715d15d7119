# techindicators in Dafny

A model of the `techindicators` engine: technical indicators over a sequence of
price bars (OHLCV candles) and the signal fusion that turns them into one
trading verdict for a memecoin. The model covers:

- the price selector of a bar;
- the simple moving average (rolling means, latest mean, price above the mean,
  fast/slow crossover);
- Bollinger bands (population standard deviation bands, band width, position of
  the close, squeeze, breakout, the Bollinger strategy signal);
- the relative strength index (gains and losses, plain-mean seed then Wilder
  smoothing, zones, divergence from strict interior peaks and troughs,
  momentum, the RSI strategy signal);
- the volume engine (VMA, OBV, VPT, VROC and ADL as running accumulators,
  volume breakout, accumulation/distribution from a least-squares slope of the
  ADL, the volume strategy);
- the two fusion layers: `ComprehensiveAnalysis` (vote counting and the
  extreme-condition override) and `UltimateAnalysis` (volume confirmation,
  rug-pull grading, confidence adjustment, the low-volume override).

Modules, one per source file plus three shared ones:

| module | file | models |
|---|---|---|
| `Outcomes` | `outcomes.dfy` | the error kinds, `Result` and `Option` |
| `Sums` | `sums.dfy` | left-to-right sums and sign facts about products |
| `Bars` | `bars.dfy` | `types.go` |
| `MovingAverage` | `moving_average.dfy` | `movingAvg.go` |
| `Bollinger` | `bollinger.dfy` | `bollingerBands.go` |
| `Rsi` | `rsi.dfy` | `rsi.go` |
| `Regression` | `regression.dfy` | the least-squares slope in `volumeAnalysis.go` |
| `Volume` | `volume.dfy` | `volumeAnalysis.go` |
| `Fusion` | `fusion.dfy` | `techIndicators.go` |

How the model is built:

- Each engine that works by loops (`CalculateSMA`, `CalculateMultipleSMA`,
  `CalculateBollingerBands`, `BollingerSqueeze`, `CalculateRSI`,
  `DetectRSIDivergence`, `CalculateVolumeAnalysis`,
  `DetectAccumulationDistribution`, the vote count of `ComprehensiveAnalysis`)
  is a `method` with the source's loops and their invariants. Each is proved
  equal to a specification function (`SmaSeries`, `BandSeries`, `SqueezeOf`,
  `RsiSeries`, `DivergenceOf`, `VolumeSeries`, `AccumulationOf`, `Votes`).
  The lemmas are proved about those functions.
- The straight-line functions and rule tables are Dafny functions. For a
  first-match table, each outcome's `ensures` is an if-and-only-if: its own
  condition holds and no earlier row's condition does.
- The volume engine copies the bars into four arrays, as the source does, and
  its main loop reads them.
- Prices are `real`. `math.Sqrt` is the parameter `sqrt`. A proof that needs
  it assumes only `IsSqrt(sqrt)`: a non-negative root whose square is its
  argument.
- The source's error values are `Result` errors of the kinds in `Outcomes`.
  A Go caller that discards an error (`ComprehensiveAnalysis`, the OBV trend of
  `AnalyzeVolumeStrategy`) sees the zero value. The model writes it as `None`,
  `false` or "sideways".
- The tag strings are datatypes. Each has a `ToString` giving the exact string
  the source uses.
- `movingAvg.go` and `bollingerBands.go` take raw string rows, while their
  callers pass bars. Both engines are modelled over a sequence of `OHLCV` bars,
  and they read the price through `ExtractPrice`.

The model follows the code as written where it departs from the textbook
indicators:

- The RSI of a window without losses is `100 - 100/101`, not 100. A zero
  average loss gives the ratio 100 (rsi.go:80-84 and 101-105), so the index
  never reaches 100.
- Two divisions are left unguarded:
  - The volume ratio `volume / VMA` is not guarded against a zero VMA
    (volumeAnalysis.go:151 and 296).
  - The squeeze average divides by the lookback (bollingerBands.go:166).

  The model does not forbid these inputs. It reproduces what float64 gives:
  - The ratio is a `Volume.Ratio`: finite, plus or minus infinity, or NaN.
    Every comparison the rules make on it follows IEEE-754.
  - A squeeze lookback of 0 averages nothing. It yields NaN, so the answer is
    "no squeeze".

## Model

| member | source | states |
|---|---|---|
| `Bars.ExtractPrice` | types.go:18-35 | when the close lies in the bar's range, the typical and the weighted price also lie between low and high |
| `Bars.SelectorFields` | types.go:18-35 | open, close, high and low return that field; typical is (h+l+c)/3; weighted is (h+l+2c)/4; any other selector returns the close |
| `MovingAverage.SmaSeries` | movingAvg.go:28-67 | succeeds iff 0 < period <= length (an empty dataset fails); on success it has length - period + 1 points |
| `MovingAverage.SmaSeriesEntry` | movingAvg.go:44-64 | point k carries bar k+period-1's timestamp and the mean of the selected prices of bars k..k+period-1 |
| `MovingAverage.SmaSeriesLastTwo` | movingAvg.go:190-194 | the last two points are the means of the windows ending at the last two bars |
| `MovingAverage.WindowSum` | movingAvg.go:45-54 | the inner loop's sum is the sum of the window's selected prices |
| `MovingAverage.WindowMean` | movingAvg.go:45-57 | the window's mean is its sum divided by the period |
| `MovingAverage.CalculateSMA` | movingAvg.go:28-67 | the nested loops produce exactly the moving-average series, errors included |
| `MovingAverage.SmaPeriodOne` | movingAvg.go:44-57 | with period 1 the series is the selected prices themselves, with their timestamps |
| `MovingAverage.SmaWholeSeries` | movingAvg.go:44-57 | with period = length there is one point: the whole-series mean at the last timestamp |
| `MovingAverage.SmaOfConstantPrice` | movingAvg.go:45-57 | a constant price is its own moving average |
| `MovingAverage.CalculateMultipleSMA` | movingAvg.go:115-127 | succeeds iff every period is valid; the keys are exactly the requested periods and each value is that period's series; a failure names the first invalid period and its error |
| `MovingAverage.GetLatestSMA` | movingAvg.go:130-141 | succeeds iff the series does, with the mean of the last `period` bars; errors propagate |
| `MovingAverage.IsPriceAboveSMA` | movingAvg.go:144-162 | true iff the last close is strictly above the latest mean; errors propagate |
| `MovingAverage.CrossoverOf` | movingAvg.go:197-203 | bullish iff fastPrev <= slowPrev and fastCur > slowCur; bearish iff fastPrev >= slowPrev and fastCur < slowCur; no_signal otherwise; never both |
| `MovingAverage.CrossoverSwap` | movingAvg.go:197-203 | swapping the fast and slow pairs turns bullish into bearish and back |
| `MovingAverage.SMACrossover` | movingAvg.go:165-204 | fails when fast >= slow, then when length < slow + 1, then with the fast average's error; otherwise the crossover of the last two fast and slow means |
| `Bollinger.SquaredDeviations` | bollingerBands.go:57-60 | the sum of squared deviations is never negative |
| `Bollinger.SquaredDeviationsZero` | bollingerBands.go:57-62 | the sum of squared deviations is zero iff every price equals the mean |
| `Bollinger.StdDevZero` | bollingerBands.go:57-62 | the population standard deviation is >= 0, and 0 iff every price in the window equals the window mean |
| `Bollinger.BandShape` | bollingerBands.go:65-72 | upper - middle = middle - lower = multiplier * stdDev, so upper >= middle >= lower; the bands meet iff the window is constant; width is (upper-lower)/middle, or 0 when middle is 0 |
| `Bollinger.BandSeries` | bollingerBands.go:19-84 | succeeds iff non-empty, 0 < period <= length and multiplier > 0; otherwise the first failing check's error; length - period + 1 bands |
| `Bollinger.BandsOrdered` | bollingerBands.go:39-66 | every band is symmetric and ordered, and its middle is the mean of its window |
| `Bollinger.BandOrderedAt` | bollingerBands.go:39-66 | band k is symmetric and ordered, and its middle is the mean of bars k..k+period-1 |
| `Bollinger.CollectPrices` | bollingerBands.go:44-51 | the collection loop gathers the window's selected prices and their sum |
| `Bollinger.SumSquaredDeviations` | bollingerBands.go:57-60 | the variance loop accumulates the squared deviations from the mean |
| `Bollinger.WindowBand` | bollingerBands.go:42-78 | one turn of the outer loop yields the band of the window ending at bar i, stamped with that bar |
| `Bollinger.CalculateBollingerBands` | bollingerBands.go:19-84 | the loops produce exactly the band series, errors included |
| `Bollinger.GetLatestBollingerBands` | bollingerBands.go:87-98 | succeeds iff the band checks pass, with the band of the last window; errors propagate |
| `Bollinger.PositionOf` | bollingerBands.go:130-144 | above_upper iff price > upper; below_lower iff price < lower (and not above); touching_upper, touching_lower and between_bands by the tolerances in that order; exactly one results |
| `Bollinger.GetPricePosition` | bollingerBands.go:112-145 | the position of the last close against the latest band; the band checks' errors propagate |
| `Bollinger.NoSqueezeOnSteadyWidth` | bollingerBands.go:166-172 | a steady non-negative width is never a squeeze |
| `Bollinger.SqueezeFromBands` | bollingerBands.go:154-172 | fails iff fewer than `lookback` bands, and then with insufficient_squeeze_data |
| `Bollinger.SqueezeOf` | bollingerBands.go:148-173 | succeeds iff the band checks pass and there are at least `lookback` bands; band errors propagate; too few bands give insufficient_squeeze_data |
| `Bollinger.TotalWidth` | bollingerBands.go:162-165 | the loop totals the widths of the recent bands |
| `Bollinger.DetectSqueeze` | bollingerBands.go:154-172 | the squeeze test on a band series: last width below 70% of the mean recent width |
| `Bollinger.BollingerSqueeze` | bollingerBands.go:148-173 | the squeeze engine computes exactly the squeeze verdict |
| `Bollinger.BreakoutOf` | bollingerBands.go:199-209 | bullish iff between_bands or touching_upper moves to above_upper; bearish iff between_bands or touching_lower moves to below_lower; otherwise no_breakout |
| `Bollinger.BollingerBreakout` | bollingerBands.go:176-210 | fewer than 2 bars gives insufficient_data; the band checks' errors propagate; a previous prefix shorter than the period gives insufficient_data; otherwise the breakout between the previous and the current position at tolerance 0.02 |
| `Bollinger.SignalOf` | bollingerBands.go:244-260 | each strategy signal holds iff its rule matches and no earlier rule does: strong_buy/strong_sell, buy/sell, wait_for_breakout, buy_signal/sell_signal, hold |
| `Bollinger.AnalyzeBollingerStrategy` | bollingerBands.go:222-269 | succeeds iff the band checks pass and there are at least 10 bands; band errors propagate and fewer than 10 bands give insufficient_squeeze_data; it combines position, breakout, squeeze over 10 bands and latest width under the signal rule |
| `Rsi.RsiOf` | rsi.go:80-92 | the index lies in [0, 100); a zero average loss gives 100 - 100/101; otherwise 100 * gain / (gain + loss) |
| `Rsi.ZoneOf` | rsi.go:119-132 | extreme high iff >= 80, overbought iff in [70, 80), extreme low iff <= 20, oversold iff in (20, 30], neutral otherwise |
| `Rsi.Gain` | rsi.go:54-63 | the gain is non-negative, and positive iff the price rose |
| `Rsi.Loss` | rsi.go:54-63 | the loss is non-negative; gain - loss = change; at most one of them is non-zero |
| `Rsi.Gains` | rsi.go:54-63 | one non-negative gain per consecutive pair of prices |
| `Rsi.Losses` | rsi.go:54-63 | one non-negative loss per consecutive pair of prices |
| `Rsi.Wilder` | rsi.go:95-98 | the Wilder update keeps a non-negative average non-negative |
| `Rsi.WilderFixedPoint` | rsi.go:95-98 | an input equal to the average leaves it unchanged |
| `Rsi.Smoothed` | rsi.go:71-98 | the seeded and smoothed average of non-negative values is non-negative |
| `Rsi.SmoothedConstant` | rsi.go:71-98 | a constant input smooths to that constant |
| `Rsi.RsiValue` | rsi.go:80-105 | every smoothed index lies in [0, 100) |
| `Rsi.RsiAt` | rsi.go:80-113 | point k lies in [0, 100) and carries bar period+k's timestamp |
| `Rsi.RsiSeries` | rsi.go:28-116 | succeeds iff 0 < period < length (an empty dataset fails); length - period points |
| `Rsi.RsiSeriesEntry` | rsi.go:80-113 | point k of the series is the index at bar period+k |
| `Rsi.RsiSeriesPoints` | rsi.go:80-113 | every point lies in [0, 100), is labelled with its zone and carries bar period+k's timestamp |
| `Rsi.NoLossesWhenNonFalling` | rsi.go:54-63 | non-falling prices have no losses |
| `Rsi.SaturatedPoint` | rsi.go:80-113 | without losses, point k is 100 - 100/101 |
| `Rsi.NonFallingPricesSaturate` | rsi.go:80-113 | non-falling prices saturate every point at 100 - 100/101 |
| `Rsi.SelectPrices` | rsi.go:42-46 | the price loop selects every bar's price |
| `Rsi.PriceChanges` | rsi.go:54-63 | the change loop produces the gains and the losses |
| `Rsi.SeedAverages` | rsi.go:71-77 | the seed averages are the plain means of the first `period` gains and losses |
| `Rsi.SmoothedPoints` | rsi.go:80-113 | the first point and the smoothing loop produce the index at every bar from `period` on |
| `Rsi.CalculateRSI` | rsi.go:28-116 | the engine computes exactly the RSI series, errors included |
| `Rsi.GetLatestRSI` | rsi.go:135-146 | succeeds iff the series does, with the point of the last bar; errors propagate |
| `Rsi.TurnPositions` | rsi.go:178-198 | exactly the positions of the strict interior peaks (or troughs) among the first `n` points, strictly ascending |
| `Rsi.Extremes` | rsi.go:178-198 | the k-th recorded extreme is the index value and close of the k-th turn position, so every strict interior peak (or trough) is recorded, in bar order, and nothing else |
| `Rsi.RisingRunHasNoExtremes` | rsi.go:178-198 | a strictly rising index has no peaks and no troughs |
| `Rsi.Confidence` | rsi.go:209-212 | the confidence is \|delta\|/10 up to a size of 10 and 1 from there on, so it lies in [0, 1] |
| `Rsi.DivergenceFrom` | rsi.go:200-241 | bearish iff the last two highs show a higher price and a lower index; bullish iff that fails and the last two lows show a lower price and a higher index; each carries the confidence of its own index difference and regular strength; otherwise none/none/0 |
| `Rsi.EffectiveLookback` | rsi.go:157-159 | a lookback below 5 becomes exactly 5; others are unchanged |
| `Rsi.DivergenceOf` | rsi.go:156-242 | succeeds iff the RSI series does; too few points give none/insufficient_data/0; otherwise the verdict is the divergence rule over the peaks and troughs of the last `lookback` index points and bars; the confidence lies in [0, 1] |
| `Rsi.RecentWindowsAligned` | rsi.go:171-172 | the recent index points and the recent bars describe the same bars |
| `Rsi.RisingIndexHasNoDivergence` | rsi.go:178-241 | a strictly rising index yields no divergence |
| `Rsi.FindExtremes` | rsi.go:175-198 | the extremes loop records the peaks and troughs in order |
| `Rsi.DetectRSIDivergence` | rsi.go:156-242 | the engine computes exactly the divergence, errors included |
| `Rsi.MomentumOf` | rsi.go:288-296 | strengthening (weakening) iff the last three values strictly rise (fall) |
| `Rsi.RsiSignalOf` | rsi.go:299-313 | each strategy signal holds iff its rule matches and no earlier rule does: strong_buy, strong_sell, buy, sell, bullish, bearish, hold |
| `Rsi.MomentumSignals` | rsi.go:299-313 | bullish iff above 50 and strengthening, except for an extreme high with a bearish divergence; symmetrically for bearish |
| `Rsi.AnalyzeRSIStrategy` | rsi.go:254-322 | succeeds iff the series does; combines the latest point, its condition, the divergence over 10, the momentum and the signal rule |
| `Regression.TimeSumClosed` | volumeAnalysis.go:220-226 | twice the sum of the times 0..n-1 is n(n-1) |
| `Regression.SpreadPositive` | volumeAnalysis.go:228-229 | for two or more points n*sum(t^2) - sum(t)^2 is positive |
| `Regression.SpreadNonZero` | volumeAnalysis.go:228-229 | the slope's denominator never vanishes for two or more points |
| `Regression.SlopeFromClosed` | volumeAnalysis.go:215-229 | from the sums of any prefix the regression loop reaches the closed-form slope |
| `Regression.SlopeIsClosedForm` | volumeAnalysis.go:215-229 | the regression loop computes the closed-form least-squares slope |
| `Regression.SumOnLine` | volumeAnalysis.go:220-226 | the sum of values on the line a + b*t is n*a + b*sum(t) |
| `Regression.WeightedOnLine` | volumeAnalysis.go:220-226 | the time-weighted sum of values on a line is a*sum(t) + b*sum(t^2) |
| `Regression.SlopeAlgebra` | volumeAnalysis.go:229 | the slope formula applied to the sums of a line gives its slope |
| `Regression.SlopeOfLine` | volumeAnalysis.go:215-229 | values on the line a + b*t have slope exactly b |
| `Volume.Quotient` | volumeAnalysis.go:151 | the float64 quotient is finite iff the divisor is non-zero, NaN iff 0/0, +Inf iff a positive dividend over zero, -Inf iff a negative one, and a finite quotient times the divisor gives back the dividend |
| `Volume.RatioComparisons` | volumeAnalysis.go:157-172 | NaN fails both >= and <; no ratio passes both; > implies >=; >= without > means equality |
| `Volume.ObvChange` | volumeAnalysis.go:87-94 | OBV does not move when the close is unchanged; with a positive volume it rises iff the close rose and falls iff it fell |
| `Volume.VptChange` | volumeAnalysis.go:97-100 | VPT does not move when the close is unchanged; with a positive previous close and volume it rises iff the close rose |
| `Volume.MoneyFlowMultiplier` | volumeAnalysis.go:110 | the multiplier lies in [-1, 1] when the close is inside the bar; +1 at the high and -1 at the low |
| `Volume.MultiplierBounds` | volumeAnalysis.go:110 | a numerator within the range gives a quotient in [-1, 1] |
| `Volume.AdlChange` | volumeAnalysis.go:109-113 | a flat bar leaves ADL unchanged; a close at the high adds the full volume |
| `Volume.TotalSteady` | volumeAnalysis.go:73-113 | a running total whose steps are all zero stays at the first bar's volume |
| `Volume.VrocAt` | volumeAnalysis.go:103-106 | VROC is 0 when the earlier volume is 0 and when the volume is unchanged |
| `Volume.MaxPeriod` | volumeAnalysis.go:47-50 | the larger of the two periods |
| `Volume.VolumeAtBar` | volumeAnalysis.go:78-123 | the entry for bar i holds its timestamp and volume, the mean of its trailing volumes, the OBV, VPT and ADL totals over bars maxPeriod..i, and its VROC |
| `Volume.VolumeSeries` | volumeAnalysis.go:38-127 | succeeds iff non-empty, both periods positive and length > maxPeriod; errors in the source's order; length - maxPeriod entries |
| `Volume.VolumePrefixExtend` | volumeAnalysis.go:115-123 | each turn appends the entry of the next bar |
| `Volume.VolumeSeriesEntry` | volumeAnalysis.go:115-123 | entry k describes bar maxPeriod+k |
| `Volume.Columns` | volumeAnalysis.go:60-70 | the four fresh arrays hold the volumes, closes, highs and lows of the bars |
| `Volume.CalculateVolumeAnalysis` | volumeAnalysis.go:38-127 | the engine computes exactly the volume series, errors included |
| `Volume.RunAccumulators` | volumeAnalysis.go:73-124 | the main loop produces every entry from bar maxPeriod on |
| `Volume.AccumulateBar` | volumeAnalysis.go:78-124 | one turn advances the three totals by bar i and appends its entry |
| `Volume.VolumeWindowMean` | volumeAnalysis.go:80-84 | the inner loop computes the mean of the trailing volumes |
| `Volume.RateOfChange` | volumeAnalysis.go:103-106 | the VROC of bar i |
| `Volume.AdvanceTotals` | volumeAnalysis.go:86-113 | OBV, VPT and ADL advance by bar i's changes |
| `Volume.GetLatestVolumeAnalysis` | volumeAnalysis.go:130-141 | succeeds iff the series does, with the entry of the last bar; errors propagate |
| `Volume.ConstantClosesKeepObvAndVpt` | volumeAnalysis.go:87-100 | with constant closes OBV and VPT stay at the first volume |
| `Volume.FlatBarsKeepAdl` | volumeAnalysis.go:109-113 | with high = low on every bar ADL stays at the first volume |
| `Volume.SteadyVolume` | volumeAnalysis.go:80-106 | a constant volume has VROC 0 and is its own moving average |
| `Volume.Confidence` | volumeAnalysis.go:156-169 | each strength has its own confidence: 0 unset, 0.3 weak, 0.6 moderate, 0.8 strong, 0.9 extreme |
| `Volume.BreakoutStrength` | volumeAnalysis.go:156-169 | extreme iff ratio >= 3x multiplier, strong iff below that and >= 2x, moderate iff below both and >= 1x, otherwise weak (never unset); NaN is weak and +Inf extreme |
| `Volume.ZeroAverageIsExtreme` | volumeAnalysis.go:151-169 | a positive volume over a zero average is +Inf, an extreme breakout at any multiplier, and never below 0.5 |
| `Volume.BreakoutConfidenceMonotone` | volumeAnalysis.go:156-169 | a larger ratio never lowers the confidence |
| `Volume.BreakoutTrend` | volumeAnalysis.go:176-187 | with two bars or more: bullish iff the close rose and OBV > 0, bearish iff it fell, otherwise neutral; no trend iff fewer than two bars |
| `Volume.DetectVolumeBreakout` | volumeAnalysis.go:144-194 | succeeds iff the series over VROC period 5 does; breakout iff ratio >= multiplier, else normal/neutral; strength tier and its confidence; for a breakout, bullish iff the close rose and OBV > 0 and bearish iff it fell |
| `Volume.BreakoutMatchesStrength` | volumeAnalysis.go:156-173 | the signal is a breakout iff its strength is not weak |
| `Volume.FlowThresholds` | volumeAnalysis.go:234-260 | accumulation iff slope > 100, distribution iff < -100, neutral otherwise; strong beyond +-1000, moderate between 100 and 1000 in size, weak iff neutral; trend and confidence go with them |
| `Volume.AccumulationMonotone` | volumeAnalysis.go:234-260 | a larger slope never turns accumulation into something else, nor a smaller one distribution |
| `Volume.Lookback` | volumeAnalysis.go:198-200 | a lookback below 5 becomes exactly 5; others are unchanged |
| `Volume.AccumulationOf` | volumeAnalysis.go:197-263 | succeeds iff there are more than 10 bars; too few results give insufficient_data with no error |
| `Volume.AdlSlope` | volumeAnalysis.go:215-229 | the regression loop over the recent ADL values computes their least-squares slope |
| `Volume.AccumulationCases` | volumeAnalysis.go:197-263 | the detector fails with the series' error, reports insufficient data, or classifies the slope of the last `lookback` ADL values |
| `Volume.SlopeClassified` | volumeAnalysis.go:212-260 | the verdict is the classification of the recent ADL slope |
| `Volume.DetectAccumulationDistribution` | volumeAnalysis.go:197-263 | the detector computes exactly the accumulation verdict, errors included |
| `Volume.LinearAdlFlow` | volumeAnalysis.go:212-260 | when the recent ADL lies on the line a + b*t the verdict is the classification of b |
| `Volume.ObvTrend` | volumeAnalysis.go:299-308 | rising (falling) iff the last three OBV values strictly rise (fall); otherwise sideways |
| `Volume.ActionOf` | volumeAnalysis.go:311-327 | a bullish (bearish) breakout gives strong_buy or buy (strong_sell or sell), strong iff the money flow agrees; without a directional breakout, accumulate iff accumulation with a rising OBV and distribute iff distribution with a falling one; after those, low_volume_alert iff ratio < 0.5, else hold |
| `Volume.AnalyzeVolumeStrategy` | volumeAnalysis.go:276-337 | succeeds iff the latest analysis, the breakout and the accumulation detectors do; the first of them to fail gives the error; combines them with the ratio, the OBV trend and the signal rule |
| `Volume.ConstantClosesSideways` | volumeAnalysis.go:299-308 | with constant closes the OBV trend is sideways |
| `Fusion.Half` | techIndicators.go:106 | Go's `n/2` truncates toward zero |
| `Fusion.SmaSignalOf` | techIndicators.go:108-117 | bullish-family iff above the average; strong iff the crossover agrees; never neutral |
| `Fusion.SideOf` | techIndicators.go:130-137 | a signal votes bullish iff it is one of the four bullish names, bearish iff one of the four bearish names |
| `Fusion.VotesBounded` | techIndicators.go:126-137 | each signal is counted at most once, on at most one side |
| `Fusion.SmaSignalVotes` | techIndicators.go:108-137 | the moving-average signal always votes, bullish iff it is bullish-family |
| `Fusion.BollingerAbstentions` | techIndicators.go:130-137 | buy_signal, sell_signal, wait_for_breakout and an unset signal vote for neither side |
| `Fusion.VoteDecision` | techIndicators.go:140-165 | STRONG BUY iff 3 bullish votes, BUY iff 2; otherwise STRONG SELL iff 3 bearish, SELL iff 2; otherwise WAIT or HOLD by the breakout flag; confidence HIGH for STRONG BUY/STRONG SELL/WAIT, MEDIUM for BUY/SELL; risk LOW for STRONG BUY/BUY/WAIT, HIGH for STRONG SELL, MEDIUM for SELL/HOLD |
| `Fusion.VoteSidesExclusive` | techIndicators.go:126-165 | with three signals at most one side reaches two votes |
| `Fusion.ExtremeOverride` | techIndicators.go:168-176 | extreme high above the upper band forces STRONG SELL/HIGH/HIGH; extreme low below the lower band forces STRONG BUY/HIGH/LOW; nothing else changes the decision |
| `Fusion.SignalNames` | techIndicators.go:126 | three signals vote in order: the moving-average signal, the Bollinger signal and the RSI signal, each an empty string when unset |
| `Fusion.Combine` | techIndicators.go:125-185 | the override wins when it applies, the vote table otherwise; the verdict is never SUSPICIOUS |
| `Fusion.CountVotes` | techIndicators.go:127-137 | the counting loop counts the bullish and the bearish votes, at most one per signal |
| `Fusion.Fuse` | techIndicators.go:125-185 | the count, the table and the override give the fused technical analysis |
| `Fusion.ComprehensiveAnalysis` | techIndicators.go:103-186 | never fails: each constituent's error is dropped and the fusion rules run on what remains |
| `Fusion.VolumeConfirms` | techIndicators.go:33-43 | a buy verdict is confirmed iff volume says strong_buy, buy or accumulate; a sell verdict iff strong_sell, sell or distribute; WAIT iff ratio < 1; nothing else |
| `Fusion.RugPullOf` | techIndicators.go:46-55 | extreme iff strong_sell volume, distribution, an RSI strong_sell and ratio > 3; otherwise high iff distribution with a STRONG SELL verdict; otherwise medium iff a distribute volume signal or ratio > 2 with a SELL verdict; otherwise low |
| `Fusion.ExtremeRugIgnoresVerdict` | techIndicators.go:48-50 | the extreme grade does not depend on the technical verdict |
| `Fusion.Raise` | techIndicators.go:64-68 | one notch more confidence, capped at HIGH |
| `Fusion.ConfirmAdjust` | techIndicators.go:62-82 | confirmation raises confidence and keeps the verdict; otherwise HIGH drops to MEDIUM with strong verdicts weakened, MEDIUM drops to LOW with HOLD, LOW is unchanged |
| `Fusion.UltimateOf` | techIndicators.go:32-99 | a low-volume alert gives SUSPICIOUS/LOW/HIGH; otherwise the adjusted verdict with the technical risk level |
| `Fusion.SuspiciousOnlyOnLowVolume` | techIndicators.go:85-89 | the ultimate verdict is SUSPICIOUS iff the volume strategy raised a low-volume alert |
| `Fusion.UltimateAnalysis` | techIndicators.go:19-100 | fails iff the volume strategy fails (with its error); otherwise the ultimate verdict over the technical analysis on closes and the volume strategy with VROC period 5 |

## Left out

- String parsing. The bar-parsing half of `extractPrice` (movingAvg.go:70-112) and its parse errors are not modelled. Prices come from bars through `ExtractPrice`.
- Timestamps are opaque values carried from the bar. Their formatting with `time.Format` and the JSON field tags are not modelled.
- example.go and sharpeRatio.go are not part of this model. They hold demo output, string conversion through library parsers, and a network call with its tool handler.
- The print-only stub `exampleUsage` (techIndicators.go:189-193) is not modelled.
- Floating point. Prices are exact reals, with no IEEE-754 rounding. Infinity and NaN appear only where a division is unguarded (`Volume.Ratio`, the zero-lookback squeeze). The bits of `math.Sqrt` are not modelled: it is a parameter satisfying `IsSqrt`.
- Branches that cannot be reached once the earlier checks pass are omitted:
  - the empty-results checks of the `GetLatest*` functions;
  - the RSI "insufficient data" check (rsi.go:66-68);
  - the fewer-than-two-points fallback of `SMACrossover` (movingAvg.go:186-188);
  - the `i > 0` guards in the volume loop;
  - the error of the previous position in `BollingerBreakout` (bollingerBands.go:194-196).
- `Bollinger.SqueezeOf`, `Bollinger.BollingerSqueeze`: the lookback is a natural number. A negative lookback makes the source slice out of range and panic, so it is not modelled.
- `Volume.AccumulationOf`: its own contract states when the detector fails and when it reports insufficient data. The classification of the slope is stated by `Volume.AccumulationCases` and `Volume.LinearAdlFlow`.
- `Fusion.Combine`: the source only discards the constituents' errors and keeps zero values. The model shows a failed constituent as unset (`None`), and an unset Bollinger signal abstains from the vote.
