/** The Bollinger band engine (bollingerBands.go): rolling mean plus and
    minus a multiple of the population standard deviation, the position of
    the close against the bands, squeeze and breakout detection, and the
    engine's own trading signal.

    The square root comes from the platform's math library; the model takes
    it as the parameter `sqrt` and assumes only `IsSqrt(sqrt)` where a proof
    needs it. */
module Bollinger {
  import opened Outcomes
  import opened Sums
  import opened Bars

  /** `sqrt` returns the non-negative square root of every non-negative real. */
  ghost predicate IsSqrt(sqrt: real -> real) {
    forall x :: x >= 0.0 ==> sqrt(x) >= 0.0 && Squared(sqrt(x)) == x
  }

  datatype Band = Band(
    timestamp: Timestamp,
    upperBand: real,
    middleBand: real,   // the moving average
    lowerBand: real,
    bandWidth: real)    // (upper - lower) / middle, or 0 when middle is 0

  datatype Position = AboveUpper | BetweenBands | BelowLower | TouchingUpper | TouchingLower {
    function ToString(): string {
      match this
      case AboveUpper => "above_upper"
      case BetweenBands => "between_bands"
      case BelowLower => "below_lower"
      case TouchingUpper => "touching_upper"
      case TouchingLower => "touching_lower"
    }
  }

  datatype Breakout = BullishBreakout | BearishBreakout | NoBreakout | InsufficientData {
    function ToString(): string {
      match this
      case BullishBreakout => "bullish_breakout"
      case BearishBreakout => "bearish_breakout"
      case NoBreakout => "no_breakout"
      case InsufficientData => "insufficient_data"
    }
  }

  datatype Signal = StrongBuy | StrongSell | Buy | Sell | WaitForBreakout | BuySignal | SellSignal | Hold {
    function ToString(): string {
      match this
      case StrongBuy => "strong_buy"
      case StrongSell => "strong_sell"
      case Buy => "buy"
      case Sell => "sell"
      case WaitForBreakout => "wait_for_breakout"
      case BuySignal => "buy_signal"
      case SellSignal => "sell_signal"
      case Hold => "hold"
    }
  }

  datatype BollingerStrategy = BollingerStrategy(
    position: Position,
    breakout: Breakout,
    squeeze: bool,
    bandWidth: real,
    signal: Signal)

  // ---------------------------------------------------------------------------
  // Bands

  /** The sum of squared deviations of `s` from `m`, accumulated left to right. */
  function SquaredDeviations(s: seq<real>, m: real): (r: real)
    ensures r >= 0.0
    decreases |s|
  {
    if |s| == 0 then 0.0 else SquaredDeviations(s[..|s| - 1], m) + Squared(s[|s| - 1] - m)
  }

  /** The squared deviations vanish exactly when every element equals `m`. */
  lemma {:induction false} SquaredDeviationsZero(s: seq<real>, m: real)
    ensures SquaredDeviations(s, m) == 0.0 <==> forall i :: 0 <= i < |s| ==> s[i] == m
    decreases |s|
  {
    if |s| > 0 {
      var init, last := s[..|s| - 1], s[|s| - 1];
      SquaredDeviationsZero(init, m);
      if SquaredDeviations(s, m) == 0.0 {
        forall i | 0 <= i < |s| ensures s[i] == m {
          if i < |s| - 1 {
            assert s[i] == init[i];
          }
        }
      }
      if forall i :: 0 <= i < |s| ==> s[i] == m {
        assert forall i :: 0 <= i < |init| ==> init[i] == m;
      }
    }
  }

  /** The window mean (the middle band). */
  function Mean(window: seq<real>): real
    requires |window| > 0
  {
    Sum(window) / |window| as real
  }

  /** The population standard deviation: the squared deviations are divided
      by the window length, not by one less. */
  function StdDev(window: seq<real>, sqrt: real -> real): real
    requires |window| > 0
  {
    sqrt(SquaredDeviations(window, Mean(window)) / |window| as real)
  }

  /** The bands `multiplier` deviations either side of the mean, and their
      width relative to the mean (0 when the mean is 0). */
  function BandAround(timestamp: Timestamp, sma: real, stdDev: real, multiplier: real): Band {
    var upper := sma + multiplier * stdDev;
    var lower := sma - multiplier * stdDev;
    Band(timestamp, upper, sma, lower, if sma != 0.0 then (upper - lower) / sma else 0.0)
  }

  /** The band of one window, stamped with the window's last bar. */
  function BandOf(window: seq<real>, timestamp: Timestamp, multiplier: real, sqrt: real -> real): Band
    requires |window| > 0
  {
    BandAround(timestamp, Mean(window), StdDev(window, sqrt), multiplier)
  }

  /** The standard deviation is non-negative, and zero exactly when every
      price of the window equals the mean. */
  lemma StdDevZero(window: seq<real>, sqrt: real -> real)
    requires |window| > 0 && IsSqrt(sqrt)
    ensures StdDev(window, sqrt) >= 0.0
    ensures StdDev(window, sqrt) == 0.0 <==> forall i :: 0 <= i < |window| ==> window[i] == Mean(window)
  {
    var m := Mean(window);
    var v := SquaredDeviations(window, m) / |window| as real;
    assert v >= 0.0;
    var s := sqrt(v);
    assert s >= 0.0 && Squared(s) == v;
    assert v == 0.0 <==> SquaredDeviations(window, m) == 0.0;
    SquaredDeviationsZero(window, m);
  }

  /** The bands sit symmetrically `multiplier * stdDev` around the mean, so
      upper >= middle >= lower, with equality exactly for a flat window; the
      width is `2 * multiplier * stdDev / middle` when the middle is not 0. */
  lemma BandShape(window: seq<real>, timestamp: Timestamp, multiplier: real, sqrt: real -> real)
    requires |window| > 0 && IsSqrt(sqrt) && multiplier > 0.0
    ensures var b := BandOf(window, timestamp, multiplier, sqrt);
            b.upperBand - b.middleBand == b.middleBand - b.lowerBand == multiplier * StdDev(window, sqrt) &&
            b.upperBand >= b.middleBand >= b.lowerBand &&
            (b.upperBand == b.lowerBand <==> forall i :: 0 <= i < |window| ==> window[i] == b.middleBand) &&
            b.bandWidth == (if b.middleBand != 0.0 then 2.0 * multiplier * StdDev(window, sqrt) / b.middleBand else 0.0)
  {
    StdDevZero(window, sqrt);
    var s := StdDev(window, sqrt);
    assert multiplier * s == Scaled(multiplier, s);
  }

  /** The parameter checks of CalculateBollingerBands, in the source's order. */
  function BandCheck(data: seq<OHLCV>, period: int, multiplier: real): Option<Error> {
    if |data| == 0 then Some(EmptyDataset)
    else if period <= 0 then Some(NonPositivePeriod)
    else if period > |data| then Some(PeriodExceedsLength(period, |data|))
    else if multiplier <= 0.0 then Some(NonPositiveMultiplier)
    else None
  }

  /** What CalculateBollingerBands computes: one band per full window. */
  function BandSeries(data: seq<OHLCV>, period: int, multiplier: real, priceType: PriceType, sqrt: real -> real)
    : (r: Result<seq<Band>>)
    ensures r.Ok? <==> BandCheck(data, period, multiplier) == None
    ensures r.Ok? ==> 0 < period <= |data| && multiplier > 0.0 && |r.value| == |data| - period + 1
    ensures r.Err? ==> BandCheck(data, period, multiplier) == Some(r.error)
  {
    match BandCheck(data, period, multiplier)
    case Some(e) => Err(e)
    case None =>
      Ok(seq(|data| - period + 1, k requires 0 <= k < |data| - period + 1 =>
           BandOf(Prices(data, priceType)[k..k + period], data[k + period - 1].timestamp, multiplier, sqrt)))
  }

  /** The window of `period` selected prices ending at bar `i`. */
  function Window(data: seq<OHLCV>, priceType: PriceType, period: int, i: int): (w: seq<real>)
    requires 0 < period && period - 1 <= i < |data|
    ensures |w| == period
  {
    Prices(data, priceType)[i - period + 1..i + 1]
  }

  /** Every band the engine emits satisfies the band shape. */
  lemma BandsOrdered(data: seq<OHLCV>, period: int, multiplier: real, priceType: PriceType, sqrt: real -> real)
    requires IsSqrt(sqrt) && BandSeries(data, period, multiplier, priceType, sqrt).Ok?
    ensures var bands := BandSeries(data, period, multiplier, priceType, sqrt).value;
            forall k :: 0 <= k < |bands| ==>
              bands[k].upperBand - bands[k].middleBand == bands[k].middleBand - bands[k].lowerBand >= 0.0 &&
              bands[k].middleBand == Sum(Prices(data, priceType)[k..k + period]) / period as real
  {
    var bands := BandSeries(data, period, multiplier, priceType, sqrt).value;
    forall k | 0 <= k < |bands|
      ensures bands[k].upperBand - bands[k].middleBand == bands[k].middleBand - bands[k].lowerBand >= 0.0
      ensures bands[k].middleBand == Sum(Prices(data, priceType)[k..k + period]) / period as real
    {
      BandOrderedAt(data, period, multiplier, priceType, sqrt, k);
    }
  }

  /** Band `k` is the band of the window of bars `k .. k + period - 1`. */
  lemma BandOrderedAt(data: seq<OHLCV>, period: int, multiplier: real, priceType: PriceType, sqrt: real -> real, k: int)
    requires IsSqrt(sqrt) && BandSeries(data, period, multiplier, priceType, sqrt).Ok?
    requires 0 <= k < |BandSeries(data, period, multiplier, priceType, sqrt).value|
    ensures var b := BandSeries(data, period, multiplier, priceType, sqrt).value[k];
            b.upperBand - b.middleBand == b.middleBand - b.lowerBand >= 0.0 &&
            b.middleBand == Sum(Prices(data, priceType)[k..k + period]) / period as real
  {
    var w := Prices(data, priceType)[k..k + period];
    assert BandSeries(data, period, multiplier, priceType, sqrt).value[k] == BandOf(w, data[k + period - 1].timestamp, multiplier, sqrt);
    BandShape(w, data[k + period - 1].timestamp, multiplier, sqrt);
  }

  /** The collecting loop of one window: the selected prices of bars
      `lo..hi` and their running sum. */
  method CollectPrices(data: seq<OHLCV>, priceType: PriceType, lo: int, hi: int) returns (prices: seq<real>, sum: real)
    requires 0 <= lo <= hi <= |data|
    ensures prices == Prices(data, priceType)[lo..hi]
    ensures sum == Sum(prices)
  {
    ghost var all := Prices(data, priceType);
    prices := [];
    sum := 0.0;
    var j := lo;
    while j < hi
      invariant lo <= j <= hi
      invariant prices == all[lo..j]
      invariant sum == Sum(prices)
    {
      var price := ExtractPrice(data[j], priceType);
      assert (prices + [price])[..|prices|] == prices;
      assert all[lo..j + 1] == prices + [price];
      prices := prices + [price];
      sum := sum + price;
      j := j + 1;
    }
  }

  /** The variance loop of one window: squared deviations from `sma`. */
  method SumSquaredDeviations(prices: seq<real>, sma: real) returns (varianceSum: real)
    ensures varianceSum == SquaredDeviations(prices, sma)
  {
    varianceSum := 0.0;
    for k := 0 to |prices|
      invariant varianceSum == SquaredDeviations(prices[..k], sma)
    {
      assert prices[..k + 1][..k] == prices[..k];
      var diff := prices[k] - sma;
      varianceSum := varianceSum + Squared(diff);
    }
    assert prices[..|prices|] == prices;
  }

  /** The band of the window ending at bar `i`, as one iteration of the
      source's outer loop computes it. */
  method WindowBand(data: seq<OHLCV>, period: int, multiplier: real, priceType: PriceType, sqrt: real -> real, i: int)
    returns (band: Band)
    requires 0 < period && period - 1 <= i < |data|
    ensures band == BandOf(Window(data, priceType, period, i), data[i].timestamp, multiplier, sqrt)
  {
    var prices, sum := CollectPrices(data, priceType, i - period + 1, i + 1);
    assert prices == Window(data, priceType, period, i);
    var sma := sum / period as real;
    assert sma == Mean(prices);
    var varianceSum := SumSquaredDeviations(prices, sma);
    var stdDev := sqrt(varianceSum / period as real);
    assert stdDev == StdDev(prices, sqrt);
    band := BandAround(data[i].timestamp, sma, stdDev, multiplier);
  }

  /** The bands as the source computes them, one window per outer iteration. */
  method CalculateBollingerBands(data: seq<OHLCV>, period: int, multiplier: real, priceType: PriceType, sqrt: real -> real)
    returns (r: Result<seq<Band>>)
    ensures r == BandSeries(data, period, multiplier, priceType, sqrt)
  {
    if |data| == 0 {
      return Err(EmptyDataset);
    }
    if period <= 0 {
      return Err(NonPositivePeriod);
    }
    if period > |data| {
      return Err(PeriodExceedsLength(period, |data|));
    }
    if multiplier <= 0.0 {
      return Err(NonPositiveMultiplier);
    }
    var results: seq<Band> := [];
    var i := period - 1;
    while i < |data|
      invariant period - 1 <= i <= |data|
      invariant |results| == i - period + 1
      invariant forall k :: 0 <= k < |results| ==>
                  results[k] == BandOf(Window(data, priceType, period, k + period - 1), data[k + period - 1].timestamp, multiplier, sqrt)
    {
      var band := WindowBand(data, period, multiplier, priceType, sqrt, i);
      results := results + [band];
      i := i + 1;
    }
    assert results == BandSeries(data, period, multiplier, priceType, sqrt).value;
    r := Ok(results);
  }

  /** The band of the last full window. */
  function LatestBand(data: seq<OHLCV>, period: int, multiplier: real, priceType: PriceType, sqrt: real -> real): Band
    requires 0 < period <= |data|
  {
    BandOf(Prices(data, priceType)[|data| - period..], data[|data| - 1].timestamp, multiplier, sqrt)
  }

  /** The most recent band; the source's "no bands" error cannot occur once
      the parameter checks pass. */
  function GetLatestBollingerBands(data: seq<OHLCV>, period: int, multiplier: real, priceType: PriceType, sqrt: real -> real)
    : (r: Result<Band>)
    ensures r.Ok? <==> BandCheck(data, period, multiplier) == None
    ensures r.Err? ==> BandCheck(data, period, multiplier) == Some(r.error)
    ensures r.Ok? ==> r.value == LatestBand(data, period, multiplier, priceType, sqrt)
  {
    var bands :- BandSeries(data, period, multiplier, priceType, sqrt);
    assert Prices(data, priceType)[|bands| - 1..|bands| - 1 + period] == Prices(data, priceType)[|data| - period..];
    Ok(bands[|bands| - 1])
  }

  // ---------------------------------------------------------------------------
  // Position, squeeze, breakout

  /** The position of a price against a band, as a first-match chain; each
      outcome is characterised here without reference to the earlier tests. */
  function PositionOf(price: real, band: Band, tolerance: real): (pos: Position)
    ensures pos == AboveUpper <==> price > band.upperBand
    ensures pos == BelowLower <==> price <= band.upperBand && price < band.lowerBand
    ensures pos == TouchingUpper <==>
              band.lowerBand <= price <= band.upperBand && price >= band.upperBand * (1.0 - tolerance)
    ensures pos == TouchingLower <==>
              band.lowerBand <= price <= band.upperBand && price < band.upperBand * (1.0 - tolerance) &&
              price <= band.lowerBand * (1.0 + tolerance)
    ensures pos == BetweenBands <==>
              band.lowerBand <= price <= band.upperBand && price < band.upperBand * (1.0 - tolerance) &&
              price > band.lowerBand * (1.0 + tolerance)
  {
    var upperTolerance := band.upperBand * (1.0 - tolerance);
    var lowerTolerance := band.lowerBand * (1.0 + tolerance);
    if price > band.upperBand then AboveUpper
    else if price < band.lowerBand then BelowLower
    else if price >= upperTolerance then TouchingUpper
    else if price <= lowerTolerance then TouchingLower
    else BetweenBands
  }

  /** The last close against the latest band, whatever selector built the bands. */
  function GetPricePosition(data: seq<OHLCV>, period: int, multiplier: real, priceType: PriceType, tolerance: real,
                            sqrt: real -> real): (r: Result<Position>)
    ensures r.Ok? <==> BandCheck(data, period, multiplier) == None
    ensures r.Err? ==> BandCheck(data, period, multiplier) == Some(r.error)
    ensures r.Ok? ==> r.value == PositionOf(data[|data| - 1].close, LatestBand(data, period, multiplier, priceType, sqrt), tolerance)
  {
    if |data| == 0 then Err(EmptyDataset)
    else
      var band :- GetLatestBollingerBands(data, period, multiplier, priceType, sqrt);
      Ok(PositionOf(ExtractPrice(data[|data| - 1], ClosePrice), band, tolerance))
  }

  /** The band widths of a run of bands. */
  function Widths(bands: seq<Band>): (widths: seq<real>)
    ensures |widths| == |bands|
    ensures forall k :: 0 <= k < |bands| ==> widths[k] == bands[k].bandWidth
  {
    seq(|bands|, k requires 0 <= k < |bands| => bands[k].bandWidth)
  }

  /** A squeeze: the last width is below 70% of the mean of the recent widths. */
  function SqueezeRule(recent: seq<real>): bool
    requires |recent| > 0
  {
    recent[|recent| - 1] < (Sum(recent) / |recent| as real) * 0.7
  }

  /** A steady non-negative width never reads as a squeeze. */
  lemma NoSqueezeOnSteadyWidth(recent: seq<real>, w: real)
    requires |recent| > 0 && w >= 0.0
    requires forall k :: 0 <= k < |recent| ==> recent[k] == w
    ensures !SqueezeRule(recent)
  {
    MeanOfConstant(recent, w);
  }

  /** The squeeze verdict on a band series. With `lookback` 0 the source
      averages nothing, 0 / 0 is NaN and the comparison is false. */
  function SqueezeFromBands(bands: seq<Band>, lookback: nat): (r: Result<bool>)
    requires |bands| > 0
    ensures r.Ok? <==> |bands| >= lookback
    ensures r.Err? ==> r.error == InsufficientSqueezeData
  {
    if |bands| < lookback then Err(InsufficientSqueezeData)
    else if lookback == 0 then Ok(false)
    else Ok(SqueezeRule(Widths(bands[|bands| - lookback..])))
  }

  /** What BollingerSqueeze computes. A negative `lookback` makes the source
      slice out of range, so it is excluded. */
  function SqueezeOf(data: seq<OHLCV>, period: int, multiplier: real, priceType: PriceType, lookback: nat,
                     sqrt: real -> real): (r: Result<bool>)
    ensures r.Ok? <==> BandCheck(data, period, multiplier) == None && |data| - period + 1 >= lookback
    ensures BandCheck(data, period, multiplier) != None ==> r == Err(BandCheck(data, period, multiplier).value)
    ensures BandCheck(data, period, multiplier) == None && |data| - period + 1 < lookback ==> r == Err(InsufficientSqueezeData)
  {
    var bands :- BandSeries(data, period, multiplier, priceType, sqrt);
    SqueezeFromBands(bands, lookback)
  }

  /** The summing loop over the recent bands' widths. */
  method TotalWidth(recentBands: seq<Band>) returns (totalWidth: real)
    ensures totalWidth == Sum(Widths(recentBands))
  {
    ghost var widths := Widths(recentBands);
    totalWidth := 0.0;
    for k := 0 to |recentBands|
      invariant totalWidth == Sum(widths[..k])
    {
      assert widths[..k + 1][..k] == widths[..k];
      totalWidth := totalWidth + recentBands[k].bandWidth;
    }
    assert widths[..|recentBands|] == widths;
  }

  /** The squeeze test on computed bands: the recent widths are summed in a
      loop and averaged. */
  method DetectSqueeze(bands: seq<Band>, lookback: nat) returns (r: Result<bool>)
    requires |bands| > 0
    ensures r == SqueezeFromBands(bands, lookback)
  {
    if |bands| < lookback {
      return Err(InsufficientSqueezeData);
    }
    if lookback == 0 {
      // the average is 0 / 0, a NaN, and no comparison with it holds
      return Ok(false);
    }
    var recentBands := bands[|bands| - lookback..];
    var totalWidth := TotalWidth(recentBands);
    var avgWidth := totalWidth / lookback as real;
    var currentWidth := bands[|bands| - 1].bandWidth;
    ghost var widths := Widths(recentBands);
    assert currentWidth == widths[|widths| - 1];
    r := Ok(currentWidth < avgWidth * 0.7);
  }

  /** Squeeze detection: the bands, then the squeeze test on them. */
  method BollingerSqueeze(data: seq<OHLCV>, period: int, multiplier: real, priceType: PriceType, lookback: nat,
                          sqrt: real -> real) returns (r: Result<bool>)
    ensures r == SqueezeOf(data, period, multiplier, priceType, lookback, sqrt)
  {
    var bands := CalculateBollingerBands(data, period, multiplier, priceType, sqrt);
    if bands.Err? {
      return Err(bands.error);
    }
    r := DetectSqueeze(bands.value, lookback);
  }

  /** The breakout rule on the previous and current positions. */
  function BreakoutOf(prev: Position, cur: Position): (b: Breakout)
    ensures b == BullishBreakout <==> (prev == BetweenBands || prev == TouchingUpper) && cur == AboveUpper
    ensures b == BearishBreakout <==> (prev == BetweenBands || prev == TouchingLower) && cur == BelowLower
    ensures b != InsufficientData
  {
    if prev == BetweenBands && cur == AboveUpper then BullishBreakout
    else if prev == BetweenBands && cur == BelowLower then BearishBreakout
    else if prev == TouchingUpper && cur == AboveUpper then BullishBreakout
    else if prev == TouchingLower && cur == BelowLower then BearishBreakout
    else NoBreakout
  }

  /** The fixed tolerance the breakout and strategy use. */
  const BreakoutTolerance: real := 0.02

  /** Breakout: the position on the whole series against the position on the
      series without its last bar. Too little history is a result, not an
      error. Once the whole series passes the band checks, the shortened one
      does too whenever it is long enough, so its position never fails. */
  function BollingerBreakout(data: seq<OHLCV>, period: int, multiplier: real, priceType: PriceType,
                             sqrt: real -> real): (r: Result<Breakout>)
    ensures |data| < 2 ==> r == Ok(InsufficientData)
    ensures |data| >= 2 ==> (r.Ok? <==> BandCheck(data, period, multiplier) == None)
    ensures |data| >= 2 && r.Err? ==> BandCheck(data, period, multiplier) == Some(r.error)
    ensures |data| >= 2 && r.Ok? && period == |data| ==> r.value == InsufficientData
    ensures |data| >= 2 && r.Ok? && period < |data| ==>
              r.value == BreakoutOf(
                PositionOf(data[|data| - 2].close, LatestBand(data[..|data| - 1], period, multiplier, priceType, sqrt), BreakoutTolerance),
                PositionOf(data[|data| - 1].close, LatestBand(data, period, multiplier, priceType, sqrt), BreakoutTolerance))
  {
    if |data| < 2 then Ok(InsufficientData)
    else
      var currentPos :- GetPricePosition(data, period, multiplier, priceType, BreakoutTolerance, sqrt);
      var prevData := data[..|data| - 1];
      if |prevData| < period then Ok(InsufficientData)
      else
        match GetPricePosition(prevData, period, multiplier, priceType, BreakoutTolerance, sqrt)
        case Err(e) => Err(e)
        case Ok(prevPos) => Ok(BreakoutOf(prevPos, currentPos))
  }

  /** The engine's signal: the first matching rule of
      strong_buy/strong_sell (breakout without squeeze), buy/sell (outer band
      in a squeeze), wait_for_breakout, buy_signal/sell_signal, hold. */
  function SignalOf(position: Position, breakout: Breakout, squeeze: bool): (s: Signal)
    ensures s == StrongBuy <==> breakout == BullishBreakout && !squeeze
    ensures s == StrongSell <==> breakout == BearishBreakout && !squeeze
    ensures s == Buy <==> position == BelowLower && squeeze
    ensures s == Sell <==> position == AboveUpper && squeeze
    ensures s == WaitForBreakout <==> position == BetweenBands && squeeze
    ensures s == BuySignal <==>
              position == TouchingLower && (squeeze || (breakout != BullishBreakout && breakout != BearishBreakout))
    ensures s == SellSignal <==>
              position == TouchingUpper && (squeeze || (breakout != BullishBreakout && breakout != BearishBreakout))
  {
    if breakout == BullishBreakout && !squeeze then StrongBuy
    else if breakout == BearishBreakout && !squeeze then StrongSell
    else if position == BelowLower && squeeze then Buy
    else if position == AboveUpper && squeeze then Sell
    else if squeeze && position == BetweenBands then WaitForBreakout
    else if position == TouchingLower then BuySignal
    else if position == TouchingUpper then SellSignal
    else Hold
  }

  /** The lookback the strategy gives the squeeze detector. */
  const StrategyLookback: int := 10

  /** The full strategy: position, breakout, squeeze over the last ten bands,
      the latest width and the signal. It fails exactly when the band checks
      fail or fewer than ten bands exist. */
  function AnalyzeBollingerStrategy(data: seq<OHLCV>, period: int, multiplier: real, priceType: PriceType,
                                    sqrt: real -> real): (r: Result<BollingerStrategy>)
    ensures r.Ok? <==> BandCheck(data, period, multiplier) == None && |data| - period + 1 >= StrategyLookback
    ensures BandCheck(data, period, multiplier) != None ==> r == Err(BandCheck(data, period, multiplier).value)
    ensures BandCheck(data, period, multiplier) == None && |data| - period + 1 < StrategyLookback ==>
              r == Err(InsufficientSqueezeData)
    ensures r.Ok? ==>
              r.value.position == PositionOf(data[|data| - 1].close, LatestBand(data, period, multiplier, priceType, sqrt), BreakoutTolerance) &&
              Ok(r.value.breakout) == BollingerBreakout(data, period, multiplier, priceType, sqrt) &&
              Ok(r.value.squeeze) == SqueezeOf(data, period, multiplier, priceType, StrategyLookback, sqrt) &&
              r.value.bandWidth == LatestBand(data, period, multiplier, priceType, sqrt).bandWidth &&
              r.value.signal == SignalOf(r.value.position, r.value.breakout, r.value.squeeze)
  {
    var position :- GetPricePosition(data, period, multiplier, priceType, BreakoutTolerance, sqrt);
    match BollingerBreakout(data, period, multiplier, priceType, sqrt)
    case Err(e) => Err(e)
    case Ok(breakout) =>
      var squeeze :- SqueezeOf(data, period, multiplier, priceType, StrategyLookback, sqrt);
      match GetLatestBollingerBands(data, period, multiplier, priceType, sqrt)
      case Err(e) => Err(e)
      case Ok(bands) => Ok(BollingerStrategy(position, breakout, squeeze, bands.bandWidth, SignalOf(position, breakout, squeeze)))
  }
}
