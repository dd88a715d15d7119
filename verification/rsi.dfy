/** The relative strength index engine (rsi.go): gains and losses between
    consecutive prices, a plain-mean seed followed by Wilder smoothing, the
    threshold zones, divergence between price and index extremes, and the
    RSI strategy. */
module Rsi {
  import opened Outcomes
  import opened Sums
  import opened Bars

  /** The threshold classification of an index value. The engine reports it
      twice under different names: as the signal of each point and as the
      condition of the strategy. */
  datatype Zone = ExtremeHigh | Overbought | ExtremeLow | Oversold | Neutral {
    /** The name on each computed point. */
    function SignalName(): string {
      match this
      case ExtremeHigh => "extreme_overbought"
      case Overbought => "overbought"
      case ExtremeLow => "extreme_oversold"
      case Oversold => "oversold"
      case Neutral => "neutral"
    }

    /** The name of the strategy's condition. */
    function ConditionName(): string {
      match this
      case ExtremeHigh => "extreme_high"
      case Overbought => "overbought"
      case ExtremeLow => "extreme_low"
      case Oversold => "oversold"
      case Neutral => "neutral"
    }
  }

  datatype RsiPoint = RsiPoint(timestamp: Timestamp, value: real, signal: Zone)

  // ---------------------------------------------------------------------------
  // Arithmetic

  /** The index of a pair of average gain and average loss. A zero average
      loss stands in a ratio of 100, so the index is then 100 - 100/101 and
      never reaches 100; otherwise it is the share of the gains in the total
      movement, scaled to 100. */
  function RsiOf(avgGain: real, avgLoss: real): (rsi: real)
    requires avgGain >= 0.0 && avgLoss >= 0.0
    ensures 0.0 <= rsi < 100.0
    ensures avgLoss == 0.0 ==> rsi == 100.0 - 100.0 / 101.0
    ensures avgLoss > 0.0 ==> rsi == Divided(Scaled(100.0, avgGain), avgGain + avgLoss)
  {
    var rs := if avgLoss == 0.0 then 100.0 else Divided(avgGain, avgLoss);
    100.0 - Divided(100.0, 1.0 + rs)
  }

  /** The zone of an index value: thresholds 80, 70, 20 and 30, checked in
      that order. */
  function ZoneOf(rsi: real): (z: Zone)
    ensures z == ExtremeHigh <==> rsi >= 80.0
    ensures z == Overbought <==> 70.0 <= rsi < 80.0
    ensures z == ExtremeLow <==> rsi <= 20.0
    ensures z == Oversold <==> 20.0 < rsi <= 30.0
    ensures z == Neutral <==> 30.0 < rsi < 70.0
  {
    if rsi >= 80.0 then ExtremeHigh
    else if rsi >= 70.0 then Overbought
    else if rsi <= 20.0 then ExtremeLow
    else if rsi <= 30.0 then Oversold
    else Neutral
  }

  // ---------------------------------------------------------------------------
  // Gains, losses and their smoothed averages

  /** The gain of one price change: the change when it is positive. */
  function Gain(change: real): (g: real)
    ensures g >= 0.0
    ensures g > 0.0 <==> change > 0.0
  {
    if change > 0.0 then change else 0.0
  }

  /** The loss of one price change, as a positive amount. A change splits
      into its gain and its loss: at most one is non-zero, and their
      difference is the change. */
  function Loss(change: real): (l: real)
    ensures l >= 0.0
    ensures Gain(change) - l == change
    ensures Gain(change) == 0.0 || l == 0.0
  {
    if change > 0.0 then 0.0 else -change
  }

  /** The gains of consecutive prices: one per change. */
  function Gains(prices: seq<real>): (gains: seq<real>)
    ensures |prices| > 0 ==> |gains| == |prices| - 1
    ensures forall i :: 0 <= i < |gains| ==> gains[i] >= 0.0
  {
    if |prices| == 0 then []
    else seq(|prices| - 1, i requires 0 <= i < |prices| - 1 => Gain(prices[i + 1] - prices[i]))
  }

  /** The losses of consecutive prices. */
  function Losses(prices: seq<real>): (losses: seq<real>)
    ensures |prices| > 0 ==> |losses| == |prices| - 1
    ensures forall i :: 0 <= i < |losses| ==> losses[i] >= 0.0
  {
    if |prices| == 0 then []
    else seq(|prices| - 1, i requires 0 <= i < |prices| - 1 => Loss(prices[i + 1] - prices[i]))
  }

  /** Wilder's smoothing step: the old average weighted `period - 1` against
      one new value. */
  function Wilder(avg: real, x: real, period: int): (r: real)
    requires period > 0
    ensures avg >= 0.0 && x >= 0.0 ==> r >= 0.0
  {
    Divided(Scaled((period - 1) as real, avg) + x, period as real)
  }

  /** A steady value is a fixed point of the smoothing step. */
  lemma WilderFixedPoint(c: real, period: int)
    requires period > 0
    ensures Wilder(c, c, period) == c
  {
    ScaledStep((period - 1) as real, c);
    ScaledDivide(period as real, c);
  }

  /** The average after the first `n` values of `xs`: the plain mean of the
      first `period` values, then one smoothing step per further value. */
  function Smoothed(xs: seq<real>, period: int, n: int): (avg: real)
    requires 0 < period <= n <= |xs|
    ensures (forall i :: 0 <= i < |xs| ==> xs[i] >= 0.0) ==> avg >= 0.0
    decreases n
  {
    if n == period then
      SumNonNegative(xs[..period]);
      Divided(Sum(xs[..period]), period as real)
    else Wilder(Smoothed(xs, period, n - 1), xs[n - 1], period)
  }

  /** Over a run of equal values the average is that value, from the seed on. */
  lemma {:induction false} SmoothedConstant(xs: seq<real>, period: int, n: int, c: real)
    requires 0 < period <= n <= |xs|
    requires forall i :: 0 <= i < n ==> xs[i] == c
    ensures Smoothed(xs, period, n) == c
    decreases n
  {
    if n == period {
      MeanOfConstant(xs[..period], c);
    } else {
      SmoothedConstant(xs, period, n - 1, c);
      WilderFixedPoint(c, period);
    }
  }

  // ---------------------------------------------------------------------------
  // The series

  /** The index after the first `n` changes. */
  function RsiValue(gains: seq<real>, losses: seq<real>, period: int, n: int): (rsi: real)
    requires 0 < period <= n <= |gains| == |losses|
    requires forall i :: 0 <= i < |gains| ==> gains[i] >= 0.0 && losses[i] >= 0.0
    ensures 0.0 <= rsi < 100.0
  {
    RsiOf(Smoothed(gains, period, n), Smoothed(losses, period, n))
  }

  /** The point of the index after the first `n` changes, stamped with bar
      `n`, the bar that closes the last of them. */
  function PointAt(data: seq<OHLCV>, gains: seq<real>, losses: seq<real>, period: int, n: int): RsiPoint
    requires 0 < period <= n <= |gains| == |losses| < |data|
    requires forall i :: 0 <= i < |gains| ==> gains[i] >= 0.0 && losses[i] >= 0.0
  {
    var rsi := RsiValue(gains, losses, period, n);
    RsiPoint(data[n].timestamp, rsi, ZoneOf(rsi))
  }

  /** The `k`-th index point of the series. */
  function RsiAt(data: seq<OHLCV>, priceType: PriceType, period: int, k: int): (p: RsiPoint)
    requires 0 < period < |data|
    requires 0 <= k < |data| - period
    ensures 0.0 <= p.value < 100.0
    ensures p.timestamp == data[period + k].timestamp
  {
    var prices := Prices(data, priceType);
    PointAt(data, Gains(prices), Losses(prices), period, period + k)
  }

  /** What CalculateRSI computes: the parameter checks in the order the
      source makes them, then one point per bar from bar `period` on. */
  function RsiSeries(data: seq<OHLCV>, period: int, priceType: PriceType): (r: Result<seq<RsiPoint>>)
    ensures r.Ok? <==> 0 < period < |data|
    ensures r.Ok? ==> |r.value| == |data| - period
  {
    if |data| == 0 then Err(EmptyDataset)
    else if period <= 0 then Err(NonPositivePeriod)
    else if period >= |data| then Err(PeriodNotBelowLength(period, |data|))
    else Ok(seq(|data| - period, k requires 0 <= k < |data| - period => RsiAt(data, priceType, period, k)))
  }

  /** Entry `k` of the series is the `k`-th point. */
  lemma RsiSeriesEntry(data: seq<OHLCV>, period: int, priceType: PriceType, k: int)
    requires 0 < period < |data| && 0 <= k < |data| - period
    ensures RsiSeries(data, period, priceType).value[k] == RsiAt(data, priceType, period, k)
  {
  }

  /** Every point lies in [0, 100), carries its own zone, and point `k` is
      stamped with bar `period + k`. */
  lemma RsiSeriesPoints(data: seq<OHLCV>, period: int, priceType: PriceType)
    requires 0 < period < |data|
    ensures var s := RsiSeries(data, period, priceType).value;
            forall k :: 0 <= k < |s| ==>
              0.0 <= s[k].value < 100.0 && s[k].signal == ZoneOf(s[k].value) &&
              s[k].timestamp == data[period + k].timestamp
  {
  }

  /** When the selected price never falls there are no losses, and every
      point is the zero-loss value 100 - 100/101. */
  lemma NonFallingPricesSaturate(data: seq<OHLCV>, period: int, priceType: PriceType)
    requires 0 < period < |data|
    requires forall i, j :: 0 <= i <= j < |data| ==> ExtractPrice(data[i], priceType) <= ExtractPrice(data[j], priceType)
    ensures var s := RsiSeries(data, period, priceType).value;
            forall k :: 0 <= k < |s| ==> s[k].value == 100.0 - 100.0 / 101.0
  {
    var prices := Prices(data, priceType);
    NoLossesWhenNonFalling(prices);
    var s := RsiSeries(data, period, priceType).value;
    forall k | 0 <= k < |s|
      ensures s[k].value == 100.0 - 100.0 / 101.0
    {
      RsiSeriesEntry(data, period, priceType, k);
      SaturatedPoint(data, period, priceType, k);
    }
  }

  /** A point whose losses so far are all zero has the zero-loss value. */
  lemma SaturatedPoint(data: seq<OHLCV>, period: int, priceType: PriceType, k: int)
    requires 0 < period < |data| && 0 <= k < |data| - period
    requires forall i :: 0 <= i < |Losses(Prices(data, priceType))| ==> Losses(Prices(data, priceType))[i] == 0.0
    ensures RsiAt(data, priceType, period, k).value == 100.0 - 100.0 / 101.0
  {
    var prices := Prices(data, priceType);
    SmoothedConstant(Losses(prices), period, period + k, 0.0);
    assert RsiAt(data, priceType, period, k).value == RsiOf(Smoothed(Gains(prices), period, period + k), 0.0);
  }

  /** Prices that never fall produce no losses. */
  lemma NoLossesWhenNonFalling(prices: seq<real>)
    requires forall i, j :: 0 <= i <= j < |prices| ==> prices[i] <= prices[j]
    ensures forall i :: 0 <= i < |Losses(prices)| ==> Losses(prices)[i] == 0.0
  {
    forall i | 0 <= i < |Losses(prices)|
      ensures Losses(prices)[i] == 0.0
    {
      assert prices[i] <= prices[i + 1];
    }
  }

  /** The selector loop: the selected price of every bar. */
  method SelectPrices(data: seq<OHLCV>, priceType: PriceType) returns (prices: seq<real>)
    ensures prices == Prices(data, priceType)
  {
    prices := [];
    for i := 0 to |data|
      invariant prices == Prices(data, priceType)[..i]
    {
      prices := prices + [ExtractPrice(data[i], priceType)];
    }
  }

  /** The change loop: one gain and one loss per consecutive pair of prices. */
  method PriceChanges(prices: seq<real>) returns (gains: seq<real>, losses: seq<real>)
    requires |prices| > 0
    ensures gains == Gains(prices)
    ensures losses == Losses(prices)
  {
    ghost var allGains, allLosses := Gains(prices), Losses(prices);
    gains := [];
    losses := [];
    for i := 1 to |prices|
      invariant gains == allGains[..i - 1]
      invariant losses == allLosses[..i - 1]
    {
      var change := prices[i] - prices[i - 1];
      assert allGains[i - 1] == Gain(change) && allLosses[i - 1] == Loss(change);
      assert allGains[..i] == allGains[..i - 1] + [allGains[i - 1]];
      assert allLosses[..i] == allLosses[..i - 1] + [allLosses[i - 1]];
      if change > 0.0 {
        gains := gains + [change];
        losses := losses + [0.0];
      } else {
        gains := gains + [0.0];
        losses := losses + [-change];
      }
    }
    assert allGains[..|prices| - 1] == allGains;
    assert allLosses[..|prices| - 1] == allLosses;
  }

  /** The seed loop: the plain means of the first `period` gains and losses. */
  method SeedAverages(gains: seq<real>, losses: seq<real>, period: int) returns (avgGain: real, avgLoss: real)
    requires 0 < period <= |gains| && period <= |losses|
    ensures avgGain == Smoothed(gains, period, period)
    ensures avgLoss == Smoothed(losses, period, period)
  {
    var gainSum, lossSum := 0.0, 0.0;
    for i := 0 to period
      invariant gainSum == Sum(gains[..i]) && lossSum == Sum(losses[..i])
    {
      assert gains[..i + 1][..i] == gains[..i];
      assert losses[..i + 1][..i] == losses[..i];
      gainSum := gainSum + gains[i];
      lossSum := lossSum + losses[i];
    }
    avgGain := gainSum / period as real;
    avgLoss := lossSum / period as real;
  }

  /** The smoothing part of CalculateRSI: the seed averages and the first
      point, then one smoothing step and one point per remaining change. */
  method SmoothedPoints(data: seq<OHLCV>, gains: seq<real>, losses: seq<real>, period: int)
    returns (results: seq<RsiPoint>)
    requires 0 < period <= |gains| == |losses| < |data|
    requires forall i :: 0 <= i < |gains| ==> gains[i] >= 0.0 && losses[i] >= 0.0
    ensures |results| == |gains| - period + 1
    ensures forall k :: 0 <= k < |results| ==> results[k] == PointAt(data, gains, losses, period, period + k)
  {
    var avgGain, avgLoss := SeedAverages(gains, losses, period);
    var rsi := RsiOf(avgGain, avgLoss);
    results := [RsiPoint(data[period].timestamp, rsi, ZoneOf(rsi))];
    var i := period;
    while i < |gains|
      invariant period <= i <= |gains|
      invariant avgGain == Smoothed(gains, period, i) && avgLoss == Smoothed(losses, period, i)
      invariant |results| == i - period + 1
      invariant forall k :: 0 <= k < |results| ==> results[k] == PointAt(data, gains, losses, period, period + k)
    {
      avgGain := Wilder(avgGain, gains[i], period);
      avgLoss := Wilder(avgLoss, losses[i], period);
      rsi := RsiOf(avgGain, avgLoss);
      results := results + [RsiPoint(data[i + 1].timestamp, rsi, ZoneOf(rsi))];
      i := i + 1;
    }
  }

  /** The index as the source computes it: prices, changes, then the
      smoothed points. There are `|data| - 1 >= period` changes once the
      checks pass, so the source's "insufficient data" error never fires. */
  method CalculateRSI(data: seq<OHLCV>, period: int, priceType: PriceType) returns (r: Result<seq<RsiPoint>>)
    ensures r == RsiSeries(data, period, priceType)
  {
    if |data| == 0 {
      return Err(EmptyDataset);
    }
    if period <= 0 {
      return Err(NonPositivePeriod);
    }
    if period >= |data| {
      return Err(PeriodNotBelowLength(period, |data|));
    }
    var prices := SelectPrices(data, priceType);
    var gains, losses := PriceChanges(prices);
    assert |gains| >= period;
    var results := SmoothedPoints(data, gains, losses, period);
    assert forall k :: 0 <= k < |results| ==> results[k] == RsiAt(data, priceType, period, k);
    assert results == RsiSeries(data, period, priceType).value;
    r := Ok(results);
  }

  /** The most recent point. */
  function GetLatestRSI(data: seq<OHLCV>, period: int, priceType: PriceType): (r: Result<RsiPoint>)
    ensures r.Ok? <==> 0 < period < |data|
    ensures r.Err? ==> RsiSeries(data, period, priceType) == Err(r.error)
    ensures r.Ok? ==> r.value == RsiAt(data, priceType, period, |data| - period - 1)
    ensures r.Ok? ==> r.value.timestamp == data[|data| - 1].timestamp
  {
    var s :- RsiSeries(data, period, priceType);
    Ok(s[|s| - 1])
  }

  // ---------------------------------------------------------------------------
  // Divergence

  datatype DivergenceKind = BullishDivergence | BearishDivergence | NoDivergence {
    function ToString(): string {
      match this
      case BullishDivergence => "bullish"
      case BearishDivergence => "bearish"
      case NoDivergence => "none"
    }
  }

  datatype DivergenceStrength = Regular | InsufficientHistory | NoStrength {
    function ToString(): string {
      match this
      case Regular => "regular"
      case InsufficientHistory => "insufficient_data"
      case NoStrength => "none"
    }
  }

  datatype Divergence = Divergence(kind: DivergenceKind, strength: DivergenceStrength, confidence: real)

  /** Lookbacks below five are raised to five. */
  const MinDivergenceLookback := 5

  /** A recorded extreme: the index value and the close of the same bar. */
  datatype Extreme = Extreme(rsi: real, price: real)

  datatype Turn = Peak | Trough

  /** A strict interior peak or trough of the index values. */
  predicate IsTurn(recent: seq<RsiPoint>, i: int, turn: Turn)
    requires 0 < i < |recent| - 1
  {
    match turn
    case Peak => recent[i].value > recent[i - 1].value && recent[i].value > recent[i + 1].value
    case Trough => recent[i].value < recent[i - 1].value && recent[i].value < recent[i + 1].value
  }

  /** The positions of the strict interior peaks (or troughs) among the
      first `n` points, in ascending order. */
  function TurnPositions(recent: seq<RsiPoint>, turn: Turn, n: int): (ix: seq<int>)
    requires 0 <= n <= |recent|
    ensures forall k :: 0 <= k < |ix| ==> 0 < ix[k] < |recent| - 1 && ix[k] < n && IsTurn(recent, ix[k], turn)
    ensures forall k, l :: 0 <= k < l < |ix| ==> ix[k] < ix[l]
    ensures forall i :: 0 < i < |recent| - 1 && i < n && IsTurn(recent, i, turn) ==> i in ix
    decreases n
  {
    if n == 0 then []
    else
      var before := TurnPositions(recent, turn, n - 1);
      var i := n - 1;
      if 0 < i < |recent| - 1 && IsTurn(recent, i, turn) then before + [i] else before
  }

  /** The peaks (or troughs) among the first `n` points, in order, each with
      the close of its own bar. */
  function Extremes(recent: seq<RsiPoint>, bars: seq<OHLCV>, turn: Turn, n: int): (e: seq<Extreme>)
    requires |recent| == |bars| && 0 <= n <= |recent|
    ensures |e| <= n
    ensures |e| == |TurnPositions(recent, turn, n)|
    ensures forall k :: 0 <= k < |e| ==>
              e[k] == Extreme(recent[TurnPositions(recent, turn, n)[k]].value, bars[TurnPositions(recent, turn, n)[k]].close)
    ensures forall x :: x in e ==> exists i :: 0 < i < |recent| - 1 && i < n && IsTurn(recent, i, turn) &&
                                             x == Extreme(recent[i].value, bars[i].close)
    ensures forall i :: 0 < i < |recent| - 1 && i < n && IsTurn(recent, i, turn) ==>
              Extreme(recent[i].value, bars[i].close) in e
    decreases n
  {
    if n == 0 then []
    else
      var before := Extremes(recent, bars, turn, n - 1);
      var i := n - 1;
      if 0 < i < |recent| - 1 && IsTurn(recent, i, turn) then before + [Extreme(recent[i].value, ExtractPrice(bars[i], ClosePrice))]
      else before
  }

  /** A strictly rising run of index values has neither peaks nor troughs. */
  lemma {:induction false} RisingRunHasNoExtremes(recent: seq<RsiPoint>, bars: seq<OHLCV>, turn: Turn, n: int)
    requires |recent| == |bars| && 0 <= n <= |recent|
    requires forall i, j :: 0 <= i < j < |recent| ==> recent[i].value < recent[j].value
    ensures Extremes(recent, bars, turn, n) == []
    decreases n
  {
    if n > 0 {
      RisingRunHasNoExtremes(recent, bars, turn, n - 1);
      if 0 < n - 1 < |recent| - 1 {
        assert recent[n - 2].value < recent[n - 1].value < recent[n].value;
      }
    }
  }

  /** A confidence from an index difference: a tenth of its size, capped at 1. */
  function Confidence(delta: real): (c: real)
    ensures 0.0 <= c <= 1.0
    ensures Abs(delta) <= 10.0 ==> c == Abs(delta) / 10.0
    ensures Abs(delta) >= 10.0 ==> c == 1.0
  {
    var c := Abs(delta) / 10.0;
    if c > 1.0 then 1.0 else c
  }

  /** The price made a higher high while the index made a lower high. */
  predicate BearishPattern(highs: seq<Extreme>)
  {
    |highs| >= 2 && highs[|highs| - 1].price > highs[|highs| - 2].price && highs[|highs| - 1].rsi < highs[|highs| - 2].rsi
  }

  /** The price made a lower low while the index made a higher low. */
  predicate BullishPattern(lows: seq<Extreme>)
  {
    |lows| >= 2 && lows[|lows| - 1].price < lows[|lows| - 2].price && lows[|lows| - 1].rsi > lows[|lows| - 2].rsi
  }

  /** The divergence rule over the last two recorded peaks and troughs:
      bearish is checked first, then bullish. */
  function DivergenceFrom(highs: seq<Extreme>, lows: seq<Extreme>): (d: Divergence)
    ensures 0.0 <= d.confidence <= 1.0
    ensures d.kind == BearishDivergence <==> BearishPattern(highs)
    ensures d.kind == BullishDivergence <==> !BearishPattern(highs) && BullishPattern(lows)
    ensures d.kind == BearishDivergence ==>
              d.confidence == Confidence(highs[|highs| - 1].rsi - highs[|highs| - 2].rsi)
    ensures d.kind == BullishDivergence ==>
              d.confidence == Confidence(lows[|lows| - 1].rsi - lows[|lows| - 2].rsi)
    ensures d.kind == NoDivergence <==> d == Divergence(NoDivergence, NoStrength, 0.0)
    ensures d.kind != NoDivergence ==> d.strength == Regular
    ensures |highs| < 2 && |lows| < 2 ==> d.kind == NoDivergence
  {
    if BearishPattern(highs) then
      Divergence(BearishDivergence, Regular, Confidence(highs[|highs| - 1].rsi - highs[|highs| - 2].rsi))
    else if BullishPattern(lows) then
      Divergence(BullishDivergence, Regular, Confidence(lows[|lows| - 1].rsi - lows[|lows| - 2].rsi))
    else Divergence(NoDivergence, NoStrength, 0.0)
  }

  /** The lookback in force. */
  function EffectiveLookback(lookback: int): (lb: int)
    ensures lb >= MinDivergenceLookback
    ensures lookback >= MinDivergenceLookback ==> lb == lookback
    ensures lookback < MinDivergenceLookback ==> lb == MinDivergenceLookback
  {
    if lookback < MinDivergenceLookback then MinDivergenceLookback else lookback
  }

  /** The last `n` elements of `s`. */
  function Tail<T>(s: seq<T>, n: int): (t: seq<T>)
    requires 0 <= n <= |s|
    ensures |t| == n
  {
    s[|s| - n..]
  }

  /** What DetectRSIDivergence computes: index errors propagate; a history
      shorter than the lookback is reported, not an error; otherwise the
      rule runs over the extremes of the last `lookback` points and bars. */
  function DivergenceOf(data: seq<OHLCV>, period: int, priceType: PriceType, lookback: int): (r: Result<Divergence>)
    ensures r.Ok? <==> 0 < period < |data|
    ensures r.Err? ==> RsiSeries(data, period, priceType) == Err(r.error)
    ensures r.Ok? ==> 0.0 <= r.value.confidence <= 1.0
    ensures r.Ok? && |data| - period < EffectiveLookback(lookback) ==>
              r.value == Divergence(NoDivergence, InsufficientHistory, 0.0)
    ensures r.Ok? && |data| - period >= EffectiveLookback(lookback) ==>
              var lb := EffectiveLookback(lookback);
              var recent := Tail(RsiSeries(data, period, priceType).value, lb);
              var bars := Tail(data, lb);
              r.value == DivergenceFrom(Extremes(recent, bars, Peak, lb), Extremes(recent, bars, Trough, lb))
  {
    var lb := EffectiveLookback(lookback);
    var rsi :- RsiSeries(data, period, priceType);
    if |rsi| < lb || |data| < lb then Ok(Divergence(NoDivergence, InsufficientHistory, 0.0))
    else
      var recent := Tail(rsi, lb);
      var bars := Tail(data, lb);
      Ok(DivergenceFrom(Extremes(recent, bars, Peak, lb), Extremes(recent, bars, Trough, lb)))
  }

  /** The recent index points and the recent bars line up: point `i` of the
      one describes bar `i` of the other. */
  lemma RecentWindowsAligned(data: seq<OHLCV>, period: int, priceType: PriceType, lb: int)
    requires 0 < period < |data| && 0 <= lb <= |data| - period
    ensures forall i :: 0 <= i < lb ==>
              Tail(RsiSeries(data, period, priceType).value, lb)[i].timestamp == Tail(data, lb)[i].timestamp
  {
    var rsi := RsiSeries(data, period, priceType).value;
    forall i | 0 <= i < lb
      ensures Tail(rsi, lb)[i].timestamp == Tail(data, lb)[i].timestamp
    {
      var k := |rsi| - lb + i;
      RsiSeriesEntry(data, period, priceType, k);
      assert rsi[k].timestamp == data[period + k].timestamp;
      assert Tail(rsi, lb)[i] == rsi[k];
      assert Tail(data, lb)[i] == data[period + k];
    }
  }

  /** When the index rose strictly over the recent points there is no
      divergence to report. */
  lemma RisingIndexHasNoDivergence(recent: seq<RsiPoint>, bars: seq<OHLCV>)
    requires |recent| == |bars|
    requires forall i, j :: 0 <= i < j < |recent| ==> recent[i].value < recent[j].value
    ensures DivergenceFrom(Extremes(recent, bars, Peak, |recent|), Extremes(recent, bars, Trough, |recent|))
            == Divergence(NoDivergence, NoStrength, 0.0)
  {
    RisingRunHasNoExtremes(recent, bars, Peak, |recent|);
    RisingRunHasNoExtremes(recent, bars, Trough, |recent|);
  }

  /** The extremes loop of DetectRSIDivergence: one pass over the recent
      points, recording strict interior peaks and troughs with their closes. */
  method FindExtremes(recent: seq<RsiPoint>, bars: seq<OHLCV>) returns (highs: seq<Extreme>, lows: seq<Extreme>)
    requires |recent| == |bars|
    ensures highs == Extremes(recent, bars, Peak, |recent|)
    ensures lows == Extremes(recent, bars, Trough, |recent|)
  {
    highs := [];
    lows := [];
    for i := 0 to |recent|
      invariant highs == Extremes(recent, bars, Peak, i)
      invariant lows == Extremes(recent, bars, Trough, i)
    {
      var price := ExtractPrice(bars[i], ClosePrice);
      if i > 0 && i < |recent| - 1 {
        var prev := recent[i - 1].value;
        var next := recent[i + 1].value;
        if recent[i].value > prev && recent[i].value > next {
          highs := highs + [Extreme(recent[i].value, price)];
        }
        if recent[i].value < prev && recent[i].value < next {
          lows := lows + [Extreme(recent[i].value, price)];
        }
      }
    }
  }

  /** The divergence detector as the source runs it. */
  method DetectRSIDivergence(data: seq<OHLCV>, period: int, priceType: PriceType, lookback: int)
    returns (r: Result<Divergence>)
    ensures r == DivergenceOf(data, period, priceType, lookback)
  {
    var lb := lookback;
    if lb < MinDivergenceLookback {
      lb := MinDivergenceLookback;
    }
    var rsiResults := CalculateRSI(data, period, priceType);
    if rsiResults.Err? {
      return Err(rsiResults.error);
    }
    var rsi := rsiResults.value;
    assert lb == EffectiveLookback(lookback);
    if |rsi| < lb || |data| < lb {
      return Ok(Divergence(NoDivergence, InsufficientHistory, 0.0));
    }
    var recent := Tail(rsi, lb);
    var bars := Tail(data, lb);
    var highs, lows := FindExtremes(recent, bars);
    r := Ok(DivergenceFrom(highs, lows));
  }

  // ---------------------------------------------------------------------------
  // Strategy

  datatype Momentum = Strengthening | Weakening | Steady {
    function ToString(): string {
      match this
      case Strengthening => "strengthening"
      case Weakening => "weakening"
      case Steady => "neutral"
    }
  }

  datatype RsiSignal = StrongBuy | StrongSell | Buy | Sell | Bullish | Bearish | Hold {
    function ToString(): string {
      match this
      case StrongBuy => "strong_buy"
      case StrongSell => "strong_sell"
      case Buy => "buy"
      case Sell => "sell"
      case Bullish => "bullish"
      case Bearish => "bearish"
      case Hold => "hold"
    }
  }

  datatype RsiStrategy = RsiStrategy(
    current: RsiPoint,
    condition: Zone,
    divergence: Divergence,
    signal: RsiSignal,
    momentum: Momentum)

  /** The lookback the strategy asks the divergence detector for. */
  const StrategyLookback := 10

  /** The trend of the last three points: strengthening or weakening only
      when they move strictly in one direction. */
  function MomentumOf(points: seq<RsiPoint>): (m: Momentum)
    ensures m == Strengthening <==>
              (|points| >= 3 && points[|points| - 3].value < points[|points| - 2].value < points[|points| - 1].value)
    ensures m == Weakening <==>
              (|points| >= 3 && points[|points| - 3].value > points[|points| - 2].value > points[|points| - 1].value)
  {
    if |points| >= 3 then
      var recent := points[|points| - 3..];
      if recent[2].value > recent[1].value && recent[1].value > recent[0].value then Strengthening
      else if recent[2].value < recent[1].value && recent[1].value < recent[0].value then Weakening
      else Steady
    else Steady
  }

  /** The strategy's signal: the first rule that applies wins. */
  function RsiSignalOf(condition: Zone, divergence: DivergenceKind, momentum: Momentum, value: real): (s: RsiSignal)
    ensures s == StrongBuy <==> condition == ExtremeLow && divergence == BullishDivergence
    ensures s == StrongSell <==> condition == ExtremeHigh && divergence == BearishDivergence
    ensures s == Buy <==> condition == Oversold && momentum == Strengthening
    ensures s == Sell <==> condition == Overbought && momentum == Weakening
    ensures s == Bullish <==> (value > 50.0 && momentum == Strengthening && condition != Oversold &&
                               !(condition == ExtremeLow && divergence == BullishDivergence) &&
                               !(condition == ExtremeHigh && divergence == BearishDivergence))
    ensures s == Bearish <==> (value < 50.0 && momentum == Weakening && condition != Overbought &&
                               !(condition == ExtremeLow && divergence == BullishDivergence) &&
                               !(condition == ExtremeHigh && divergence == BearishDivergence))
  {
    if condition == ExtremeLow && divergence == BullishDivergence then StrongBuy
    else if condition == ExtremeHigh && divergence == BearishDivergence then StrongSell
    else if condition == Oversold && momentum == Strengthening then Buy
    else if condition == Overbought && momentum == Weakening then Sell
    else if value > 50.0 && momentum == Strengthening then Bullish
    else if value < 50.0 && momentum == Weakening then Bearish
    else Hold
  }

  /** When the condition is the zone of the value itself, as in the
      strategy, the momentum rules reduce to the side of 50 the value is on. */
  lemma MomentumSignals(divergence: DivergenceKind, momentum: Momentum, value: real)
    ensures var s := RsiSignalOf(ZoneOf(value), divergence, momentum, value);
            (s == Bullish <==> (value > 50.0 && momentum == Strengthening &&
                                !(value >= 80.0 && divergence == BearishDivergence))) &&
            (s == Bearish <==> (value < 50.0 && momentum == Weakening &&
                                !(value <= 20.0 && divergence == BullishDivergence)))
  {
  }

  /** The RSI strategy: the latest point, its zone, the divergence over the
      last ten points, the momentum of the last three, and the signal. */
  function AnalyzeRSIStrategy(data: seq<OHLCV>, period: int, priceType: PriceType): (r: Result<RsiStrategy>)
    ensures r.Ok? <==> 0 < period < |data|
    ensures r.Err? ==> RsiSeries(data, period, priceType) == Err(r.error)
    ensures r.Ok? ==>
              Ok(r.value.current) == GetLatestRSI(data, period, priceType) &&
              r.value.condition == ZoneOf(r.value.current.value) &&
              Ok(r.value.divergence) == DivergenceOf(data, period, priceType, StrategyLookback) &&
              r.value.momentum == MomentumOf(RsiSeries(data, period, priceType).value) &&
              r.value.signal == RsiSignalOf(r.value.condition, r.value.divergence.kind, r.value.momentum, r.value.current.value)
  {
    var current :- GetLatestRSI(data, period, priceType);
    var condition := ZoneOf(current.value);
    match DivergenceOf(data, period, priceType, StrategyLookback)
    case Err(e) => Err(e)
    case Ok(divergence) =>
      match RsiSeries(data, period, priceType)
      case Err(e) => Err(e)
      case Ok(points) =>
        var momentum := MomentumOf(points);
        Ok(RsiStrategy(current, condition, divergence, RsiSignalOf(condition, divergence.kind, momentum, current.value), momentum))
  }
}
