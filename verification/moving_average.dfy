/** The simple moving average engine (movingAvg.go): rolling window means of
    the selected price, the latest mean, price against the mean, and the
    fast/slow crossover. */
module MovingAverage {
  import opened Outcomes
  import opened Sums
  import opened Bars

  datatype SmaPoint = SmaPoint(timestamp: Timestamp, value: real)

  datatype Crossover = BullishCrossover | BearishCrossover | NoSignal {
    function ToString(): string {
      match this
      case BullishCrossover => "bullish_crossover"
      case BearishCrossover => "bearish_crossover"
      case NoSignal => "no_signal"
    }
  }

  /** The mean of the selected price over the `period` bars ending at bar `end`. */
  function TrailingMean(data: seq<OHLCV>, priceType: PriceType, period: int, end: int): real
    requires 0 < period <= end + 1 <= |data|
  {
    Sum(Prices(data, priceType)[end - period + 1..end + 1]) / period as real
  }

  /** The moving-average entry of the window ending at bar `end`. */
  function SmaAt(data: seq<OHLCV>, priceType: PriceType, period: int, end: int): SmaPoint
    requires 0 < period <= end + 1 <= |data|
  {
    SmaPoint(data[end].timestamp, TrailingMean(data, priceType, period, end))
  }

  /** What CalculateSMA computes: the parameter checks in the order the
      source makes them, then one mean per full window, stamped with the
      window's last bar. */
  function SmaSeries(data: seq<OHLCV>, period: int, priceType: PriceType): (r: Result<seq<SmaPoint>>)
    ensures r.Ok? <==> 0 < period <= |data|
    ensures r.Ok? ==> |r.value| == |data| - period + 1
  {
    if |data| == 0 then Err(EmptyDataset)
    else if period <= 0 then Err(NonPositivePeriod)
    else if period > |data| then Err(PeriodExceedsLength(period, |data|))
    else Ok(seq(|data| - period + 1, k requires 0 <= k < |data| - period + 1 => SmaAt(data, priceType, period, k + period - 1)))
  }

  /** Entry `k` of the series is the mean of the window ending at bar
      `k + period - 1`. */
  lemma SmaSeriesEntry(data: seq<OHLCV>, period: int, priceType: PriceType, k: int)
    requires 0 < period <= |data|
    requires 0 <= k <= |data| - period
    ensures SmaSeries(data, period, priceType).value[k].timestamp == data[k + period - 1].timestamp
    ensures SmaSeries(data, period, priceType).value[k].value == TrailingMean(data, priceType, period, k + period - 1)
  {
  }

  /** The last two entries of a series with at least two windows. */
  lemma SmaSeriesLastTwo(data: seq<OHLCV>, period: int, priceType: PriceType)
    requires 0 < period < |data|
    ensures var s := SmaSeries(data, period, priceType).value;
            |s| >= 2 &&
            s[|s| - 2].value == TrailingMean(data, priceType, period, |data| - 2) &&
            s[|s| - 1].value == TrailingMean(data, priceType, period, |data| - 1)
  {
    SmaSeriesEntry(data, period, priceType, |data| - period - 1);
    SmaSeriesEntry(data, period, priceType, |data| - period);
  }

  /** The inner loop of CalculateSMA: the sum of the selected prices of
      bars `lo..hi`. */
  method WindowSum(data: seq<OHLCV>, priceType: PriceType, lo: int, hi: int) returns (sum: real)
    requires 0 <= lo <= hi <= |data|
    ensures sum == Sum(Prices(data, priceType)[lo..hi])
  {
    ghost var prices := Prices(data, priceType);
    sum := 0.0;
    var j := lo;
    while j < hi
      invariant lo <= j <= hi
      invariant sum == Sum(prices[lo..j])
    {
      SumExtend(prices, lo, j);
      sum := sum + ExtractPrice(data[j], priceType);
      j := j + 1;
    }
  }

  /** The mean of the window ending at bar `i`: its sum over the period. */
  method WindowMean(data: seq<OHLCV>, priceType: PriceType, period: int, i: int) returns (mean: real)
    requires 0 < period <= i + 1 <= |data|
    ensures mean == TrailingMean(data, priceType, period, i)
  {
    var sum := WindowSum(data, priceType, i - period + 1, i + 1);
    mean := sum / period as real;
  }

  /** The rolling mean, computed as the source does: an outer loop over
      window ends and an inner loop summing the window. */
  method CalculateSMA(data: seq<OHLCV>, period: int, priceType: PriceType) returns (r: Result<seq<SmaPoint>>)
    ensures r == SmaSeries(data, period, priceType)
  {
    if |data| == 0 {
      return Err(EmptyDataset);
    }
    if period <= 0 {
      return Err(NonPositivePeriod);
    }
    if period > |data| {
      return Err(PeriodExceedsLength(period, |data|));
    }
    var results: seq<SmaPoint> := [];
    var i := period - 1;
    while i < |data|
      invariant period - 1 <= i <= |data|
      invariant |results| == i - period + 1
      invariant forall k :: 0 <= k < |results| ==> results[k] == SmaAt(data, priceType, period, k + period - 1)
    {
      var mean := WindowMean(data, priceType, period, i);
      results := results + [SmaPoint(data[i].timestamp, mean)];
      i := i + 1;
    }
    assert results == SmaSeries(data, period, priceType).value;
    r := Ok(results);
  }

  /** The window checks CalculateSMA passes for one period. */
  predicate ValidPeriod(data: seq<OHLCV>, period: int) {
    0 < period <= |data|
  }

  /** One moving average per requested period, keyed by period; the first
      period that fails stops the computation and names itself in the error. */
  method CalculateMultipleSMA(data: seq<OHLCV>, periods: seq<int>, priceType: PriceType)
    returns (r: Result<map<int, seq<SmaPoint>>>)
    ensures r.Ok? <==> forall i :: 0 <= i < |periods| ==> ValidPeriod(data, periods[i])
    ensures r.Ok? ==> r.value.Keys == set i | 0 <= i < |periods| :: periods[i]
    ensures r.Ok? ==> forall q :: q in r.value ==> SmaSeries(data, q, priceType) == Ok(r.value[q])
    ensures r.Err? ==> exists i :: (0 <= i < |periods| && !ValidPeriod(data, periods[i]) &&
              (forall j :: 0 <= j < i ==> ValidPeriod(data, periods[j])) &&
              r.error == AtPeriod(periods[i], SmaSeries(data, periods[i], priceType).error))
  {
    var results: map<int, seq<SmaPoint>> := map[];
    for i := 0 to |periods|
      invariant forall j :: 0 <= j < i ==> ValidPeriod(data, periods[j])
      invariant results.Keys == set j | 0 <= j < i :: periods[j]
      invariant forall q :: q in results ==> SmaSeries(data, q, priceType) == Ok(results[q])
    {
      var sma := CalculateSMA(data, periods[i], priceType);
      if sma.Err? {
        return Err(AtPeriod(periods[i], sma.error));
      }
      results := results[periods[i] := sma.value];
    }
    r := Ok(results);
  }

  /** The most recent moving average: the mean of the last `period` prices. */
  function GetLatestSMA(data: seq<OHLCV>, period: int, priceType: PriceType): (r: Result<real>)
    ensures r.Ok? <==> 0 < period <= |data|
    ensures r.Err? ==> SmaSeries(data, period, priceType) == Err(r.error)
    ensures r.Ok? ==> r.value == TrailingMean(data, priceType, period, |data| - 1)
  {
    var sma :- SmaSeries(data, period, priceType);
    SmaSeriesEntry(data, period, priceType, |data| - period);
    Ok(sma[|sma| - 1].value)
  }

  /** Whether the last close lies strictly above the latest moving average
      (the close, whatever selector the average was built with). */
  function IsPriceAboveSMA(data: seq<OHLCV>, period: int, priceType: PriceType): (r: Result<bool>)
    ensures r.Ok? <==> 0 < period <= |data|
    ensures r.Err? ==> SmaSeries(data, period, priceType) == Err(r.error)
    ensures r.Ok? ==> (r.value <==> data[|data| - 1].close > TrailingMean(data, priceType, period, |data| - 1))
  {
    if |data| == 0 then Err(EmptyDataset)
    else
      var latest :- GetLatestSMA(data, period, priceType);
      Ok(ExtractPrice(data[|data| - 1], ClosePrice) > latest)
  }

  /** The crossover rule on the last two aligned (fast, slow) pairs. A bearish
      crossover needs the fast average to end strictly below the slow one, so
      it never coincides with a bullish one. */
  function CrossoverOf(fastPrev: real, fastCur: real, slowPrev: real, slowCur: real): (c: Crossover)
    ensures c == BullishCrossover <==> fastPrev <= slowPrev && fastCur > slowCur
    ensures c == BearishCrossover <==> fastPrev >= slowPrev && fastCur < slowCur
    ensures c == NoSignal <==> !(fastPrev <= slowPrev && fastCur > slowCur) && !(fastPrev >= slowPrev && fastCur < slowCur)
  {
    if fastPrev <= slowPrev && fastCur > slowCur then BullishCrossover
    else if fastPrev >= slowPrev && fastCur < slowCur then BearishCrossover
    else NoSignal
  }

  /** Swapping the roles of the two averages turns a bullish crossover into
      a bearish one and back. */
  lemma CrossoverSwap(fastPrev: real, fastCur: real, slowPrev: real, slowCur: real)
    ensures CrossoverOf(fastPrev, fastCur, slowPrev, slowCur) == BullishCrossover
            <==> CrossoverOf(slowPrev, slowCur, fastPrev, fastCur) == BearishCrossover
    ensures CrossoverOf(fastPrev, fastCur, slowPrev, slowCur) == BearishCrossover
            <==> CrossoverOf(slowPrev, slowCur, fastPrev, fastCur) == BullishCrossover
  {
  }

  /** Fast/slow crossover between the last two bars. The parameter checks
      come first; after them both averages have at least two points, so the
      source's "fewer than two points" fallback never fires. */
  function SMACrossover(data: seq<OHLCV>, fastPeriod: int, slowPeriod: int, priceType: PriceType): (r: Result<Crossover>)
    ensures r.Ok? <==> 0 < fastPeriod < slowPeriod && slowPeriod + 1 <= |data|
    ensures fastPeriod >= slowPeriod ==> r == Err(FastNotBelowSlow)
    ensures fastPeriod < slowPeriod && |data| < slowPeriod + 1 ==> r == Err(InsufficientCrossoverData)
    ensures fastPeriod < slowPeriod && slowPeriod + 1 <= |data| && r.Err? ==> SmaSeries(data, fastPeriod, priceType) == Err(r.error)
    ensures r.Ok? ==> r.value == CrossoverOf(
              TrailingMean(data, priceType, fastPeriod, |data| - 2), TrailingMean(data, priceType, fastPeriod, |data| - 1),
              TrailingMean(data, priceType, slowPeriod, |data| - 2), TrailingMean(data, priceType, slowPeriod, |data| - 1))
  {
    if fastPeriod >= slowPeriod then Err(FastNotBelowSlow)
    else if |data| < slowPeriod + 1 then Err(InsufficientCrossoverData)
    else
      var fastSma :- SmaSeries(data, fastPeriod, priceType);
      match SmaSeries(data, slowPeriod, priceType)
      case Err(e) => Err(e)
      case Ok(slowSma) =>
        SmaSeriesLastTwo(data, fastPeriod, priceType);
        SmaSeriesLastTwo(data, slowPeriod, priceType);
        Ok(CrossoverOf(fastSma[|fastSma| - 2].value, fastSma[|fastSma| - 1].value,
                       slowSma[|slowSma| - 2].value, slowSma[|slowSma| - 1].value))
  }

  /** With period 1 each output is the selected price of its own bar. */
  lemma SmaPeriodOne(data: seq<OHLCV>, priceType: PriceType)
    requires |data| > 0
    ensures SmaSeries(data, 1, priceType).Ok?
    ensures var s := SmaSeries(data, 1, priceType).value;
            |s| == |data| &&
            forall k :: 0 <= k < |data| ==> s[k] == SmaPoint(data[k].timestamp, ExtractPrice(data[k], priceType))
  {
    var prices := Prices(data, priceType);
    forall k | 0 <= k < |data|
      ensures TrailingMean(data, priceType, 1, k) == ExtractPrice(data[k], priceType)
    {
      var w := prices[k..k + 1];
      assert w[..0] == [];
      assert Sum(w) == Sum(w[..0]) + w[0];
    }
  }

  /** With period equal to the length there is one output: the whole-series
      mean, stamped with the last bar. */
  lemma SmaWholeSeries(data: seq<OHLCV>, priceType: PriceType)
    requires |data| > 0
    ensures SmaSeries(data, |data|, priceType) ==
            Ok([SmaPoint(data[|data| - 1].timestamp, Sum(Prices(data, priceType)) / |data| as real)])
  {
    var prices := Prices(data, priceType);
    assert prices[0..|data|] == prices;
    var s := SmaSeries(data, |data|, priceType).value;
    assert |s| == 1;
    SmaSeriesEntry(data, |data|, priceType, 0);
    assert TrailingMean(data, priceType, |data|, |data| - 1) == Sum(prices) / |data| as real;
    assert s == [SmaPoint(data[|data| - 1].timestamp, Sum(prices) / |data| as real)];
  }

  /** Over bars whose selected price is constant, every average equals that price. */
  lemma SmaOfConstantPrice(data: seq<OHLCV>, period: int, priceType: PriceType, c: real)
    requires 0 < period <= |data|
    requires forall i :: 0 <= i < |data| ==> ExtractPrice(data[i], priceType) == c
    ensures forall end :: period - 1 <= end < |data| ==> TrailingMean(data, priceType, period, end) == c
  {
    var prices := Prices(data, priceType);
    forall end | period - 1 <= end < |data|
      ensures TrailingMean(data, priceType, period, end) == c
    {
      var w := prices[end - period + 1..end + 1];
      assert forall i :: 0 <= i < |w| ==> w[i] == c;
      MeanOfConstant(w, c);
    }
  }
}
