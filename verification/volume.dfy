/** The volume engine (volumeAnalysis.go): volume moving average, on-balance
    volume, volume-price trend, volume rate of change and the
    accumulation/distribution line, run as accumulators over the bars; the
    volume-breakout and accumulation/distribution detectors; and the volume
    strategy built on them. */
module Volume {
  import opened Outcomes
  import opened Sums
  import opened Bars
  import Regression

  /** One bar's volume indicators. */
  datatype VolumeResult = VolumeResult(
    timestamp: Timestamp,
    volume: real,
    vma: real,   // volume moving average
    obv: real,   // on-balance volume
    vpt: real,   // volume-price trend
    vroc: real,  // volume rate of change, in percent
    adl: real)   // accumulation/distribution line

  // ---------------------------------------------------------------------------
  // Quotients that are not guarded against a zero divisor

  /** A float64 quotient: finite, or the infinity or NaN a zero divisor gives. */
  datatype Ratio = Finite(value: real) | PosInf | NegInf | NaN {
    /** `ratio >= x` in float64: infinity passes every bound, NaN none. */
    predicate AtLeast(x: real) {
      match this
      case Finite(v) => v >= x
      case PosInf => true
      case NegInf => false
      case NaN => false
    }

    /** `ratio > x` in float64: infinity passes every bound, NaN none. */
    predicate Above(x: real) {
      match this
      case Finite(v) => v > x
      case PosInf => true
      case NegInf => false
      case NaN => false
    }

    /** `ratio < x` in float64: minus infinity passes every bound, NaN none. */
    predicate Below(x: real) {
      match this
      case Finite(v) => v < x
      case PosInf => false
      case NegInf => true
      case NaN => false
    }
  }

  /** `a / b` in float64. */
  function Quotient(a: real, b: real): (q: Ratio)
    ensures q.Finite? <==> b != 0.0
    ensures q.Finite? ==> q.value * b == a
    ensures q == NaN <==> a == 0.0 && b == 0.0
    ensures q == PosInf <==> b == 0.0 && a > 0.0
    ensures q == NegInf <==> b == 0.0 && a < 0.0
  {
    if b != 0.0 then Finite(a / b)
    else if a > 0.0 then PosInf
    else if a < 0.0 then NegInf
    else NaN
  }

  /** NaN compares false both ways; every other ratio is either at least `x`
      or below it. */
  lemma RatioComparisons(q: Ratio, x: real)
    ensures q == NaN <==> !q.AtLeast(x) && !q.Below(x)
    ensures !(q.AtLeast(x) && q.Below(x))
    ensures q.Above(x) ==> q.AtLeast(x)
    ensures q.AtLeast(x) && !q.Above(x) ==> q == Finite(x)
  {
  }

  // ---------------------------------------------------------------------------
  // One bar's contribution to each accumulator

  /** The accumulators the engine keeps running across bars. */
  datatype Accumulator = Obv | Vpt | Adl

  /** On-balance volume adds the volume on a rising close, takes it away on a
      falling one and stays put on an unchanged one. */
  function ObvChange(prevClose: real, close: real, volume: real): (d: real)
    ensures close == prevClose ==> d == 0.0
    ensures volume > 0.0 ==> (d > 0.0 <==> close > prevClose) && (d < 0.0 <==> close < prevClose)
  {
    if close > prevClose then volume
    else if close < prevClose then -volume
    else 0.0
  }

  /** Volume-price trend adds the volume times the relative price change,
      skipped when the previous close is zero. */
  function VptChange(prevClose: real, close: real, volume: real): (d: real)
    ensures close == prevClose ==> d == 0.0
    ensures prevClose > 0.0 && volume > 0.0 ==> (d > 0.0 <==> close > prevClose)
  {
    if prevClose != 0.0 then Scaled(volume, Divided(close - prevClose, prevClose)) else 0.0
  }

  /** Where the close sits in the bar's range, from -1 at the low to +1 at
      the high. */
  function MoneyFlowMultiplier(high: real, low: real, close: real): (m: real)
    requires high != low
    ensures low <= close <= high ==> -1.0 <= m <= 1.0
    ensures close == high ==> m == 1.0
    ensures close == low ==> m == -1.0
  {
    var m := Divided((close - low) - (high - close), high - low);
    MultiplierBounds((close - low) - (high - close), high - low, m);
    m
  }

  lemma MultiplierBounds(a: real, b: real, m: real)
    requires b != 0.0 && m == a / b
    ensures b > 0.0 && -b <= a <= b ==> -1.0 <= m <= 1.0
    ensures a == b ==> m == 1.0
    ensures a == -b ==> m == -1.0
  {
    assert m * b == a;
  }

  /** The accumulation/distribution line adds the money-flow volume, skipped
      on a bar whose high equals its low. */
  function AdlChange(high: real, low: real, close: real, volume: real): (d: real)
    ensures high == low ==> d == 0.0
    ensures high != low && close == high ==> d == volume
  {
    if high != low then Scaled(MoneyFlowMultiplier(high, low, close), volume) else 0.0
  }

  /** What bar `i` adds to an accumulator. */
  function Change(data: seq<OHLCV>, acc: Accumulator, i: int): real
    requires 1 <= i < |data|
  {
    match acc
    case Obv => ObvChange(data[i - 1].close, data[i].close, data[i].volume)
    case Vpt => VptChange(data[i - 1].close, data[i].close, data[i].volume)
    case Adl => AdlChange(data[i].high, data[i].low, data[i].close, data[i].volume)
  }

  /** An accumulator after the bars `from` .. `upto - 1`: every accumulator
      starts at the first bar's volume. */
  function Total(data: seq<OHLCV>, acc: Accumulator, from: int, upto: int): real
    requires 1 <= from <= upto <= |data|
    decreases upto
  {
    if upto == from then data[0].volume else Total(data, acc, from, upto - 1) + Change(data, acc, upto - 1)
  }

  /** Bars that add nothing leave an accumulator at the first bar's volume. */
  lemma {:induction false} TotalSteady(data: seq<OHLCV>, acc: Accumulator, from: int, upto: int)
    requires 1 <= from <= upto <= |data|
    requires forall i :: from <= i < upto ==> Change(data, acc, i) == 0.0
    ensures Total(data, acc, from, upto) == data[0].volume
    decreases upto
  {
    if upto > from {
      TotalSteady(data, acc, from, upto - 1);
    }
  }

  /** The rate of change of the volume over `vrocPeriod` bars, in percent;
      zero when the earlier volume is zero. */
  function VrocAt(data: seq<OHLCV>, vrocPeriod: int, i: int): (r: real)
    requires 0 < vrocPeriod && 0 <= i < |data|
    ensures i >= vrocPeriod && data[i - vrocPeriod].volume == 0.0 ==> r == 0.0
    ensures i >= vrocPeriod && data[i].volume == data[i - vrocPeriod].volume ==> r == 0.0
  {
    if i >= vrocPeriod && data[i - vrocPeriod].volume != 0.0 then
      Divided(data[i].volume - data[i - vrocPeriod].volume, data[i - vrocPeriod].volume) * 100.0
    else
      0.0
  }

  // ---------------------------------------------------------------------------
  // The indicator series

  /** The longer of the two periods: the number of leading bars that only
      feed the windows. */
  function MaxPeriod(vmaPeriod: int, vrocPeriod: int): (m: int)
    ensures m >= vmaPeriod && m >= vrocPeriod
    ensures m == vmaPeriod || m == vrocPeriod
  {
    if vrocPeriod > vmaPeriod then vrocPeriod else vmaPeriod
  }

  /** The mean volume of the `vmaPeriod` bars ending at bar `i`. */
  function VolumeMean(data: seq<OHLCV>, vmaPeriod: int, i: int): real
    requires 0 < vmaPeriod <= i + 1 <= |data|
  {
    Divided(Sum(Volumes(data)[i - vmaPeriod + 1..i + 1]), vmaPeriod as real)
  }

  /** The indicators of result `k`, which describes bar `MaxPeriod + k`: the
      mean of the bar's trailing `vmaPeriod` volumes, the three accumulators
      over bars `MaxPeriod` .. the bar, and the rate of change. */
  function VolumeAt(data: seq<OHLCV>, vmaPeriod: int, vrocPeriod: int, k: int): (v: VolumeResult)
    requires 0 < vmaPeriod && 0 < vrocPeriod
    requires 0 <= k < |data| - MaxPeriod(vmaPeriod, vrocPeriod)
  {
    var m := MaxPeriod(vmaPeriod, vrocPeriod);
    var i := m + k;
    VolumeResult(
      data[i].timestamp,
      data[i].volume,
      VolumeMean(data, vmaPeriod, i),
      Total(data, Obv, m, i + 1),
      Total(data, Vpt, m, i + 1),
      VrocAt(data, vrocPeriod, i),
      Total(data, Adl, m, i + 1))
  }

  /** The result that describes bar `i`. */
  lemma VolumeAtBar(data: seq<OHLCV>, vmaPeriod: int, vrocPeriod: int, i: int)
    requires 0 < vmaPeriod && 0 < vrocPeriod && MaxPeriod(vmaPeriod, vrocPeriod) <= i < |data|
    ensures VolumeAt(data, vmaPeriod, vrocPeriod, i - MaxPeriod(vmaPeriod, vrocPeriod))
         == VolumeResult(data[i].timestamp, data[i].volume, VolumeMean(data, vmaPeriod, i),
                         Total(data, Obv, MaxPeriod(vmaPeriod, vrocPeriod), i + 1),
                         Total(data, Vpt, MaxPeriod(vmaPeriod, vrocPeriod), i + 1),
                         VrocAt(data, vrocPeriod, i),
                         Total(data, Adl, MaxPeriod(vmaPeriod, vrocPeriod), i + 1))
  {
  }

  /** The volume analysis of a dataset: one result for each bar after the
      first `MaxPeriod` bars, or the reason there is none. */
  function VolumeSeries(data: seq<OHLCV>, vmaPeriod: int, vrocPeriod: int): (r: Result<seq<VolumeResult>>)
    ensures r.Ok? <==> 0 < vmaPeriod && 0 < vrocPeriod && |data| > MaxPeriod(vmaPeriod, vrocPeriod)
    ensures r.Ok? ==> |r.value| == |data| - MaxPeriod(vmaPeriod, vrocPeriod) >= 1
    ensures |data| == 0 ==> r == Err(EmptyDataset)
    ensures |data| > 0 && (vmaPeriod <= 0 || vrocPeriod <= 0) ==> r == Err(NonPositivePeriod)
  {
    if |data| == 0 then Err(EmptyDataset)
    else if vmaPeriod <= 0 || vrocPeriod <= 0 then Err(NonPositivePeriod)
    else if |data| <= MaxPeriod(vmaPeriod, vrocPeriod) then Err(InsufficientVolumeData(MaxPeriod(vmaPeriod, vrocPeriod)))
    else Ok(VolumePrefix(data, vmaPeriod, vrocPeriod, |data| - MaxPeriod(vmaPeriod, vrocPeriod)))
  }

  /** The first `n` results. */
  function VolumePrefix(data: seq<OHLCV>, vmaPeriod: int, vrocPeriod: int, n: int): (s: seq<VolumeResult>)
    requires 0 < vmaPeriod && 0 < vrocPeriod
    requires 0 <= n <= |data| - MaxPeriod(vmaPeriod, vrocPeriod)
    ensures |s| == n
  {
    seq(n, k requires 0 <= k < n => VolumeAt(data, vmaPeriod, vrocPeriod, k))
  }

  lemma VolumePrefixExtend(data: seq<OHLCV>, vmaPeriod: int, vrocPeriod: int, n: int)
    requires 0 < vmaPeriod && 0 < vrocPeriod
    requires 0 <= n < |data| - MaxPeriod(vmaPeriod, vrocPeriod)
    ensures VolumePrefix(data, vmaPeriod, vrocPeriod, n + 1)
         == VolumePrefix(data, vmaPeriod, vrocPeriod, n) + [VolumeAt(data, vmaPeriod, vrocPeriod, n)]
  {
  }

  /** Result `k` of a successful analysis. */
  lemma VolumeSeriesEntry(data: seq<OHLCV>, vmaPeriod: int, vrocPeriod: int, k: int)
    requires VolumeSeries(data, vmaPeriod, vrocPeriod).Ok?
    requires 0 <= k < |VolumeSeries(data, vmaPeriod, vrocPeriod).value|
    ensures VolumeSeries(data, vmaPeriod, vrocPeriod).value[k] == VolumeAt(data, vmaPeriod, vrocPeriod, k)
    ensures VolumeAt(data, vmaPeriod, vrocPeriod, k).timestamp == data[MaxPeriod(vmaPeriod, vrocPeriod) + k].timestamp
  {
  }

  /** The bars' volumes, closes, highs and lows, copied into arrays. */
  method Columns(data: seq<OHLCV>) returns (volumes: array<real>, closes: array<real>, highs: array<real>, lows: array<real>)
    ensures fresh(volumes) && fresh(closes) && fresh(highs) && fresh(lows)
    ensures volumes.Length == closes.Length == highs.Length == lows.Length == |data|
    ensures volumes[..] == Volumes(data)
    ensures forall i :: 0 <= i < |data| ==> closes[i] == data[i].close && highs[i] == data[i].high && lows[i] == data[i].low
  {
    volumes := new real[|data|];
    closes := new real[|data|];
    highs := new real[|data|];
    lows := new real[|data|];
    for i := 0 to |data|
      invariant forall j :: 0 <= j < i ==> volumes[j] == data[j].volume
      invariant forall j :: 0 <= j < i ==> closes[j] == data[j].close && highs[j] == data[j].high && lows[j] == data[j].low
    {
      volumes[i] := data[i].volume;
      closes[i] := data[i].close;
      highs[i] := data[i].high;
      lows[i] := data[i].low;
    }
  }

  method CalculateVolumeAnalysis(data: seq<OHLCV>, vmaPeriod: int, vrocPeriod: int) returns (r: Result<seq<VolumeResult>>)
    ensures r == VolumeSeries(data, vmaPeriod, vrocPeriod)
  {
    if |data| == 0 {
      return Err(EmptyDataset);
    }
    if vmaPeriod <= 0 || vrocPeriod <= 0 {
      return Err(NonPositivePeriod);
    }
    var maxPeriod := vmaPeriod;
    if vrocPeriod > maxPeriod {
      maxPeriod := vrocPeriod;
    }
    if |data| <= maxPeriod {
      return Err(InsufficientVolumeData(maxPeriod));
    }
    var volumes, closes, highs, lows := Columns(data);
    var results := RunAccumulators(data, vmaPeriod, vrocPeriod, volumes, closes, highs, lows);
    r := Ok(results);
  }

  /** The main loop of the analysis: bar by bar, from the first bar after
      the longer period to the last. */
  method RunAccumulators(data: seq<OHLCV>, vmaPeriod: int, vrocPeriod: int,
                    volumes: array<real>, closes: array<real>, highs: array<real>, lows: array<real>)
    returns (results: seq<VolumeResult>)
    requires 0 < vmaPeriod && 0 < vrocPeriod && |data| > MaxPeriod(vmaPeriod, vrocPeriod)
    requires volumes.Length == closes.Length == highs.Length == lows.Length == |data|
    requires volumes[..] == Volumes(data)
    requires forall i :: 0 <= i < |data| ==> closes[i] == data[i].close && highs[i] == data[i].high && lows[i] == data[i].low
    ensures results == VolumePrefix(data, vmaPeriod, vrocPeriod, |data| - MaxPeriod(vmaPeriod, vrocPeriod))
  {
    var maxPeriod := MaxPeriod(vmaPeriod, vrocPeriod);
    assert volumes[0] == volumes[..][0] == data[0].volume;
    var obv, vpt, adl := volumes[0], volumes[0], volumes[0];
    results := [];
    var i := maxPeriod;
    while i < |data|
      invariant maxPeriod <= i <= |data|
      invariant results == VolumePrefix(data, vmaPeriod, vrocPeriod, i - maxPeriod)
      invariant obv == Total(data, Obv, maxPeriod, i)
      invariant vpt == Total(data, Vpt, maxPeriod, i)
      invariant adl == Total(data, Adl, maxPeriod, i)
    {
      results, obv, vpt, adl := AccumulateBar(data, vmaPeriod, vrocPeriod, volumes, closes, highs, lows, i, results, obv, vpt, adl);
      i := i + 1;
    }
  }

  /** One pass of the main loop: bar `i`'s window mean and rate of change,
      the three accumulators advanced over bar `i`, and the bar's result
      appended. */
  method AccumulateBar(data: seq<OHLCV>, vmaPeriod: int, vrocPeriod: int,
                       volumes: array<real>, closes: array<real>, highs: array<real>, lows: array<real>,
                       i: int, results0: seq<VolumeResult>, obv0: real, vpt0: real, adl0: real)
    returns (results: seq<VolumeResult>, obv: real, vpt: real, adl: real)
    requires 0 < vmaPeriod && 0 < vrocPeriod && MaxPeriod(vmaPeriod, vrocPeriod) <= i < |data|
    requires volumes.Length == closes.Length == highs.Length == lows.Length == |data|
    requires volumes[..] == Volumes(data)
    requires forall i :: 0 <= i < |data| ==> closes[i] == data[i].close && highs[i] == data[i].high && lows[i] == data[i].low
    requires results0 == VolumePrefix(data, vmaPeriod, vrocPeriod, i - MaxPeriod(vmaPeriod, vrocPeriod))
    requires obv0 == Total(data, Obv, MaxPeriod(vmaPeriod, vrocPeriod), i)
    requires vpt0 == Total(data, Vpt, MaxPeriod(vmaPeriod, vrocPeriod), i)
    requires adl0 == Total(data, Adl, MaxPeriod(vmaPeriod, vrocPeriod), i)
    ensures results == VolumePrefix(data, vmaPeriod, vrocPeriod, i + 1 - MaxPeriod(vmaPeriod, vrocPeriod))
    ensures obv == Total(data, Obv, MaxPeriod(vmaPeriod, vrocPeriod), i + 1)
    ensures vpt == Total(data, Vpt, MaxPeriod(vmaPeriod, vrocPeriod), i + 1)
    ensures adl == Total(data, Adl, MaxPeriod(vmaPeriod, vrocPeriod), i + 1)
  {
    var vma := VolumeWindowMean(data, volumes, vmaPeriod, i);
    obv, vpt, adl := AdvanceTotals(data, volumes, closes, highs, lows, MaxPeriod(vmaPeriod, vrocPeriod), i, obv0, vpt0, adl0);
    var vroc := RateOfChange(data, volumes, vrocPeriod, i);
    assert volumes[i] == volumes[..][i];
    var result := VolumeResult(data[i].timestamp, volumes[i], vma, obv, vpt, vroc, adl);
    var n := i - MaxPeriod(vmaPeriod, vrocPeriod);
    VolumeAtBar(data, vmaPeriod, vrocPeriod, i);
    assert result == VolumeAt(data, vmaPeriod, vrocPeriod, n);
    VolumePrefixExtend(data, vmaPeriod, vrocPeriod, n);
    assert n + 1 == i + 1 - MaxPeriod(vmaPeriod, vrocPeriod);
    results := results0 + [result];
  }

  /** The mean volume of the `vmaPeriod` bars ending at bar `i`. */
  method VolumeWindowMean(data: seq<OHLCV>, volumes: array<real>, vmaPeriod: int, i: int) returns (vma: real)
    requires 0 < vmaPeriod <= i + 1 <= volumes.Length
    requires volumes[..] == Volumes(data)
    ensures vma == VolumeMean(data, vmaPeriod, i)
  {
    ghost var lo, vs := i - vmaPeriod + 1, volumes[..];
    var vmaSum := 0.0;
    var j := i - vmaPeriod + 1;
    while j <= i
      invariant lo <= j <= i + 1
      invariant vmaSum == Sum(vs[lo..j])
    {
      SumExtend(vs, lo, j);
      assert volumes[j] == vs[j];
      vmaSum := vmaSum + volumes[j];
      j := j + 1;
    }
    vma := Divided(vmaSum, vmaPeriod as real);
  }

  /** The rate of change of bar `i`'s volume over `vrocPeriod` bars. */
  method RateOfChange(data: seq<OHLCV>, volumes: array<real>, vrocPeriod: int, i: int) returns (vroc: real)
    requires 0 < vrocPeriod && 0 <= i < volumes.Length
    requires volumes[..] == Volumes(data)
    ensures vroc == VrocAt(data, vrocPeriod, i)
  {
    assert volumes[i] == volumes[..][i];
    assert i >= vrocPeriod ==> volumes[i - vrocPeriod] == volumes[..][i - vrocPeriod];
    vroc := 0.0;
    if i >= vrocPeriod && volumes[i - vrocPeriod] != 0.0 {
      vroc := Divided(volumes[i] - volumes[i - vrocPeriod], volumes[i - vrocPeriod]) * 100.0;
    }
  }

  /** The three running accumulators advanced over bar `i`. */
  method AdvanceTotals(data: seq<OHLCV>, volumes: array<real>, closes: array<real>, highs: array<real>, lows: array<real>,
                       from: int, i: int, obv0: real, vpt0: real, adl0: real)
    returns (obv: real, vpt: real, adl: real)
    requires 1 <= from <= i < |data|
    requires volumes.Length == closes.Length == highs.Length == lows.Length == |data|
    requires volumes[..] == Volumes(data)
    requires forall i :: 0 <= i < |data| ==> closes[i] == data[i].close && highs[i] == data[i].high && lows[i] == data[i].low
    requires obv0 == Total(data, Obv, from, i)
    requires vpt0 == Total(data, Vpt, from, i)
    requires adl0 == Total(data, Adl, from, i)
    ensures obv == Total(data, Obv, from, i + 1)
    ensures vpt == Total(data, Vpt, from, i + 1)
    ensures adl == Total(data, Adl, from, i + 1)
  {
    obv, vpt, adl := obv0, vpt0, adl0;
    assert volumes[i] == volumes[..][i] == data[i].volume;

    if i > 0 {
      if closes[i] > closes[i - 1] {
        obv := obv + volumes[i];
      } else if closes[i] < closes[i - 1] {
        obv := obv - volumes[i];
      }
    }

    if i > 0 {
      vpt := vpt + VptChange(closes[i - 1], closes[i], volumes[i]);
    }

    adl := adl + AdlChange(highs[i], lows[i], closes[i], volumes[i]);
  }

  /** The most recent bar's volume indicators. */
  function GetLatestVolumeAnalysis(data: seq<OHLCV>, vmaPeriod: int, vrocPeriod: int): (r: Result<VolumeResult>)
    ensures r.Ok? <==> VolumeSeries(data, vmaPeriod, vrocPeriod).Ok?
    ensures r.Err? ==> r.error == VolumeSeries(data, vmaPeriod, vrocPeriod).error
    ensures r.Ok? ==> r.value == VolumeAt(data, vmaPeriod, vrocPeriod, |data| - MaxPeriod(vmaPeriod, vrocPeriod) - 1)
    ensures r.Ok? ==> r.value.timestamp == data[|data| - 1].timestamp && r.value.volume == data[|data| - 1].volume
  {
    var results :- VolumeSeries(data, vmaPeriod, vrocPeriod);
    VolumeSeriesEntry(data, vmaPeriod, vrocPeriod, |results| - 1);
    Ok(results[|results| - 1])
  }

  // ---------------------------------------------------------------------------
  // Properties of the series

  /** Constant closes leave on-balance volume and volume-price trend at the
      first bar's volume in every result. */
  lemma ConstantClosesKeepObvAndVpt(data: seq<OHLCV>, vmaPeriod: int, vrocPeriod: int)
    requires VolumeSeries(data, vmaPeriod, vrocPeriod).Ok?
    requires forall i :: 0 <= i < |data| ==> data[i].close == data[0].close
    ensures forall k :: 0 <= k < |VolumeSeries(data, vmaPeriod, vrocPeriod).value| ==>
              VolumeSeries(data, vmaPeriod, vrocPeriod).value[k].obv == data[0].volume &&
              VolumeSeries(data, vmaPeriod, vrocPeriod).value[k].vpt == data[0].volume
  {
    var m := MaxPeriod(vmaPeriod, vrocPeriod);
    forall k | 0 <= k < |data| - m
      ensures VolumeSeries(data, vmaPeriod, vrocPeriod).value[k].obv == data[0].volume
      ensures VolumeSeries(data, vmaPeriod, vrocPeriod).value[k].vpt == data[0].volume
    {
      VolumeSeriesEntry(data, vmaPeriod, vrocPeriod, k);
      TotalSteady(data, Obv, m, m + k + 1);
      TotalSteady(data, Vpt, m, m + k + 1);
    }
  }

  /** Bars whose high equals their low leave the accumulation/distribution
      line at the first bar's volume in every result. */
  lemma FlatBarsKeepAdl(data: seq<OHLCV>, vmaPeriod: int, vrocPeriod: int)
    requires VolumeSeries(data, vmaPeriod, vrocPeriod).Ok?
    requires forall i :: 0 <= i < |data| ==> data[i].high == data[i].low
    ensures forall k :: 0 <= k < |VolumeSeries(data, vmaPeriod, vrocPeriod).value| ==>
              VolumeSeries(data, vmaPeriod, vrocPeriod).value[k].adl == data[0].volume
  {
    var m := MaxPeriod(vmaPeriod, vrocPeriod);
    forall k | 0 <= k < |data| - m
      ensures VolumeSeries(data, vmaPeriod, vrocPeriod).value[k].adl == data[0].volume
    {
      VolumeSeriesEntry(data, vmaPeriod, vrocPeriod, k);
      TotalSteady(data, Adl, m, m + k + 1);
    }
  }

  /** A constant volume has no rate of change and is its own moving average. */
  lemma SteadyVolume(data: seq<OHLCV>, vmaPeriod: int, vrocPeriod: int, c: real)
    requires VolumeSeries(data, vmaPeriod, vrocPeriod).Ok?
    requires forall i :: 0 <= i < |data| ==> data[i].volume == c
    ensures forall k :: 0 <= k < |VolumeSeries(data, vmaPeriod, vrocPeriod).value| ==>
              VolumeSeries(data, vmaPeriod, vrocPeriod).value[k].vroc == 0.0 &&
              VolumeSeries(data, vmaPeriod, vrocPeriod).value[k].vma == c
  {
    var m := MaxPeriod(vmaPeriod, vrocPeriod);
    forall k | 0 <= k < |data| - m
      ensures VolumeSeries(data, vmaPeriod, vrocPeriod).value[k].vroc == 0.0
      ensures VolumeSeries(data, vmaPeriod, vrocPeriod).value[k].vma == c
    {
      VolumeSeriesEntry(data, vmaPeriod, vrocPeriod, k);
      var i := m + k;
      MeanOfConstant(Volumes(data)[i - vmaPeriod + 1..i + 1], c);
    }
  }

  // ---------------------------------------------------------------------------
  // Volume signals

  /** The kind of a volume signal. */
  datatype FlowType = Breakout | Normal | Accumulation | Distribution | NeutralFlow | InsufficientData {
    function ToString(): string {
      match this
      case Breakout => "breakout"
      case Normal => "normal"
      case Accumulation => "accumulation"
      case Distribution => "distribution"
      case NeutralFlow => "neutral"
      case InsufficientData => "insufficient_data"
    }
  }

  /** The strength of a volume signal; `Unset` is the empty string the
      source leaves when it sets no strength. */
  datatype Strength = Unset | Weak | Moderate | Strong | Extreme {
    function ToString(): string {
      match this
      case Unset => ""
      case Weak => "weak"
      case Moderate => "moderate"
      case Strong => "strong"
      case Extreme => "extreme"
    }
  }

  /** The direction of a volume signal; `NoTrend` is the empty string. */
  datatype Trend = NoTrend | Bullish | Bearish | Neutral {
    function ToString(): string {
      match this
      case NoTrend => ""
      case Bullish => "bullish"
      case Bearish => "bearish"
      case Neutral => "neutral"
    }
  }

  datatype VolumeSignal = VolumeSignal(kind: FlowType, strength: Strength, trend: Trend, confidence: real)

  /** The confidence that goes with each strength, in both detectors. */
  function Confidence(strength: Strength): (c: real)
    ensures strength != Unset ==> 0.3 <= c <= 0.9
    ensures strength == Unset <==> c == 0.0
    ensures strength == Weak <==> c == 0.3
    ensures strength == Moderate <==> c == 0.6
    ensures strength == Strong <==> c == 0.8
    ensures strength == Extreme <==> c == 0.9
  {
    match strength
    case Unset => 0.0
    case Weak => 0.3
    case Moderate => 0.6
    case Strong => 0.8
    case Extreme => 0.9
  }

  /** The breakout tiers: volume at least three, two or one times the
      multiplier above its average is extreme, strong or moderate. */
  function BreakoutStrength(ratio: Ratio, multiplier: real): (s: Strength)
    ensures s != Unset
    ensures s == Extreme <==> ratio.AtLeast(multiplier * 3.0)
    ensures s == Strong <==> !ratio.AtLeast(multiplier * 3.0) && ratio.AtLeast(multiplier * 2.0)
    ensures s == Moderate <==> !ratio.AtLeast(multiplier * 2.0) && !ratio.AtLeast(multiplier * 3.0) && ratio.AtLeast(multiplier)
    ensures multiplier >= 0.0 ==> (s != Weak <==> ratio.AtLeast(multiplier))
    ensures ratio == NaN ==> s == Weak
    ensures ratio == PosInf ==> s == Extreme
  {
    if ratio.AtLeast(multiplier * 3.0) then Extreme
    else if ratio.AtLeast(multiplier * 2.0) then Strong
    else if ratio.AtLeast(multiplier) then Moderate
    else Weak
  }

  /** A positive volume over a zero average is an extreme breakout and never
      a low-volume alert, whatever the multiplier. */
  lemma ZeroAverageIsExtreme(volume: real, vma: real, multiplier: real)
    requires volume > 0.0 && vma == 0.0
    ensures Quotient(volume, vma) == PosInf
    ensures BreakoutStrength(Quotient(volume, vma), multiplier) == Extreme
    ensures Quotient(volume, vma).AtLeast(multiplier) && !Quotient(volume, vma).Below(0.5)
  {
  }

  /** With a non-negative multiplier, more volume relative to its average
      never lowers the breakout confidence. */
  lemma BreakoutConfidenceMonotone(r1: real, r2: real, multiplier: real)
    requires multiplier >= 0.0 && r1 <= r2
    ensures Confidence(BreakoutStrength(Finite(r1), multiplier)) <= Confidence(BreakoutStrength(Finite(r2), multiplier))
  {
  }

  /** The direction of a breakout: up on a rising close with positive
      on-balance volume, down on a falling close. */
  function BreakoutTrend(data: seq<OHLCV>, obv: real): (t: Trend)
    ensures t == NoTrend <==> |data| < 2
    ensures t == Bullish <==> |data| >= 2 && data[|data| - 1].close > data[|data| - 2].close && obv > 0.0
    ensures t == Bearish <==> |data| >= 2 && data[|data| - 1].close < data[|data| - 2].close
  {
    if |data| >= 2 then
      var currentClose := data[|data| - 1].close;
      var prevClose := data[|data| - 2].close;
      if currentClose > prevClose && obv > 0.0 then Bullish
      else if currentClose < prevClose then Bearish
      else Neutral
    else NoTrend
  }

  /** The volume-breakout detector: the latest volume against its moving
      average, with a fixed rate-of-change period of 5. */
  function DetectVolumeBreakout(data: seq<OHLCV>, vmaPeriod: int, multiplier: real): (r: Result<VolumeSignal>)
    ensures r.Ok? <==> 0 < vmaPeriod && |data| > MaxPeriod(vmaPeriod, 5)
    ensures r.Err? ==> r.error == VolumeSeries(data, vmaPeriod, 5).error
    ensures r.Ok? ==>
              var latest := VolumeAt(data, vmaPeriod, 5, |data| - MaxPeriod(vmaPeriod, 5) - 1);
              var ratio := Quotient(latest.volume, latest.vma);
              (r.value.kind == Breakout <==> ratio.AtLeast(multiplier)) &&
              (r.value.kind != Breakout ==> r.value.kind == Normal && r.value.trend == Neutral) &&
              r.value.strength == BreakoutStrength(ratio, multiplier) &&
              r.value.confidence == Confidence(r.value.strength) &&
              (r.value.kind == Breakout ==>
                 (r.value.trend == Bullish <==> data[|data| - 1].close > data[|data| - 2].close && latest.obv > 0.0) &&
                 (r.value.trend == Bearish <==> data[|data| - 1].close < data[|data| - 2].close) &&
                 r.value.trend != NoTrend)
  {
    var latest :- GetLatestVolumeAnalysis(data, vmaPeriod, 5);
    var ratio := Quotient(latest.volume, latest.vma);
    var strength := BreakoutStrength(ratio, multiplier);
    if ratio.AtLeast(multiplier) then
      Ok(VolumeSignal(Breakout, strength, BreakoutTrend(data, latest.obv), Confidence(strength)))
    else
      Ok(VolumeSignal(Normal, strength, Neutral, Confidence(strength)))
  }

  /** A breakout signal is never weak, and a weak one is never a breakout,
      whenever the multiplier is non-negative. */
  lemma BreakoutMatchesStrength(data: seq<OHLCV>, vmaPeriod: int, multiplier: real)
    requires multiplier >= 0.0
    requires DetectVolumeBreakout(data, vmaPeriod, multiplier).Ok?
    ensures var signal := DetectVolumeBreakout(data, vmaPeriod, multiplier).value;
            signal.kind == Breakout <==> signal.strength != Weak
  {
  }

  // ---------------------------------------------------------------------------
  // Accumulation and distribution

  /** The slope thresholds: beyond 1000 either way is strong, beyond 100
      moderate, anything in between neutral. */
  function FlowOfSlope(slope: real): VolumeSignal {
    if slope > 1000.0 then VolumeSignal(Accumulation, Strong, Bullish, 0.8)
    else if slope > 100.0 then VolumeSignal(Accumulation, Moderate, Bullish, 0.6)
    else if slope < -1000.0 then VolumeSignal(Distribution, Strong, Bearish, 0.8)
    else if slope < -100.0 then VolumeSignal(Distribution, Moderate, Bearish, 0.6)
    else VolumeSignal(NeutralFlow, Weak, Neutral, 0.3)
  }

  /** What each band of slopes means: accumulation above 100, distribution
      below -100, strong beyond 1000 either way, and the trend and confidence
      that go with them. */
  lemma FlowThresholds(slope: real)
    ensures var s := FlowOfSlope(slope);
            (s.kind == Accumulation <==> slope > 100.0) &&
            (s.kind == Distribution <==> slope < -100.0) &&
            (s.kind == NeutralFlow <==> -100.0 <= slope <= 100.0) &&
            (s.strength == Strong <==> slope > 1000.0 || slope < -1000.0) &&
            (s.strength == Moderate <==> 100.0 < slope <= 1000.0 || -1000.0 <= slope < -100.0) &&
            (s.strength == Weak <==> s.kind == NeutralFlow) &&
            (s.trend == Bullish <==> s.kind == Accumulation) &&
            (s.trend == Bearish <==> s.kind == Distribution) &&
            s.confidence == Confidence(s.strength)
  {
  }

  /** A steeper slope never turns accumulation into something else. */
  lemma AccumulationMonotone(s1: real, s2: real)
    requires s1 <= s2
    ensures FlowOfSlope(s1).kind == Accumulation ==> FlowOfSlope(s2).kind == Accumulation
    ensures FlowOfSlope(s2).kind == Distribution ==> FlowOfSlope(s1).kind == Distribution
  {
  }

  /** The accumulation/distribution line of some results. */
  function AdlValues(results: seq<VolumeResult>): (ys: seq<real>)
    ensures |ys| == |results|
    ensures forall i :: 0 <= i < |results| ==> ys[i] == results[i].adl
  {
    seq(|results|, i requires 0 <= i < |results| => results[i].adl)
  }

  /** The lookback, raised to at least 5. */
  function Lookback(lookback: int): (lb: int)
    ensures lb >= 5 && lb >= lookback
    ensures lookback >= 5 ==> lb == lookback
    ensures lookback < 5 ==> lb == 5
  {
    if lookback < 5 then 5 else lookback
  }

  /** What DetectAccumulationDistribution computes: the analysis with
      periods 10 and 5, and the least-squares slope of the last `lookback`
      accumulation/distribution values. */
  function AccumulationOf(data: seq<OHLCV>, lookback: int): (r: Result<VolumeSignal>)
    ensures r.Ok? <==> |data| > 10
    ensures r.Err? ==> r.error == VolumeSeries(data, 10, 5).error
    ensures r.Ok? ==> (r.value.kind == InsufficientData <==> |data| - 10 < Lookback(lookback))
    ensures r.Ok? && r.value.kind == InsufficientData ==> r.value == VolumeSignal(InsufficientData, Unset, NoTrend, 0.0)
  {
    var lb := Lookback(lookback);
    match VolumeSeries(data, 10, 5)
    case Err(e) => Err(e)
    case Ok(results) =>
      if |results| < lb then Ok(VolumeSignal(InsufficientData, Unset, NoTrend, 0.0))
      else Ok(FlowOfSlope(Regression.Slope(AdlValues(results[|results| - lb..]))))
  }

  /** The regression loop over the recent results, then the slope
      formula: the least-squares slope of their accumulation/distribution
      values against time 0, 1, .... */
  method AdlSlope(recent: seq<VolumeResult>) returns (slope: real)
    requires |recent| >= 2
    ensures slope == Regression.Slope(AdlValues(recent))
  {
    ghost var ys := AdlValues(recent);
    var adlSum, timeSum, adlTimeSum, timeSquareSum := 0.0, 0.0, 0.0, 0.0;
    for i := 0 to |recent|
      invariant timeSum == Regression.TimeSum(i) as real
      invariant timeSquareSum == Regression.TimeSquareSum(i) as real
      invariant Regression.SlopeFrom(ys, i, Regression.Fit(adlSum, timeSum, adlTimeSum, timeSquareSum)) == Regression.Slope(ys)
    {
      TimeStep(i);
      var time := i as real;
      adlSum := adlSum + recent[i].adl;
      timeSum := timeSum + time;
      adlTimeSum := adlTimeSum + Scaled(recent[i].adl, time);
      timeSquareSum := timeSquareSum + Scaled(time, time);
    }
    var n := |recent| as real;
    Regression.SpreadNonZero(|recent|);
    slope := Regression.SlopeOf(n, timeSum, timeSquareSum, adlTimeSum, adlSum);
  }

  /** The time sums after one more point. */
  lemma TimeStep(i: nat)
    ensures Regression.TimeSum(i + 1) as real == Regression.TimeSum(i) as real + i as real
    ensures Regression.TimeSquareSum(i + 1) as real == Regression.TimeSquareSum(i) as real + Scaled(i as real, i as real)
  {
    Regression.ToRealProduct(i, i);
  }

  /** The three outcomes of the detector, by the outcome of the analysis. */
  lemma AccumulationCases(data: seq<OHLCV>, lookback: int)
    ensures var analysis := VolumeSeries(data, 10, 5);
            (analysis.Err? ==> AccumulationOf(data, lookback) == Err(analysis.error)) &&
            (analysis.Ok? && |analysis.value| < Lookback(lookback) ==>
               AccumulationOf(data, lookback) == Ok(VolumeSignal(InsufficientData, Unset, NoTrend, 0.0))) &&
            (analysis.Ok? && |analysis.value| >= Lookback(lookback) ==>
               AccumulationOf(data, lookback) ==
               Ok(FlowOfSlope(Regression.Slope(AdlValues(analysis.value[|analysis.value| - Lookback(lookback)..])))))
  {
  }

  /** Enough results: the detector classifies the slope of the recent line. */
  lemma SlopeClassified(data: seq<OHLCV>, lookback: int, results: seq<VolumeResult>, slope: real)
    requires VolumeSeries(data, 10, 5) == Ok(results) && |results| >= Lookback(lookback)
    requires slope == Regression.Slope(AdlValues(results[|results| - Lookback(lookback)..]))
    ensures AccumulationOf(data, lookback) == Ok(FlowOfSlope(slope))
  {
    AccumulationCases(data, lookback);
  }

  /** The accumulation/distribution detector. */
  method DetectAccumulationDistribution(data: seq<OHLCV>, lookback: int) returns (r: Result<VolumeSignal>)
    ensures r == AccumulationOf(data, lookback)
  {
    var lb := lookback;
    if lb < 5 {
      lb := 5;
    }
    assert lb == Lookback(lookback);
    AccumulationCases(data, lookback);
    var analysis := CalculateVolumeAnalysis(data, 10, 5);
    if analysis.Err? {
      return Err(analysis.error);
    }
    var results := analysis.value;
    if |results| < lb {
      return Ok(VolumeSignal(InsufficientData, Unset, NoTrend, 0.0));
    }
    var slope := AdlSlope(results[|results| - lb..]);
    SlopeClassified(data, lookback, results, slope);
    r := Ok(FlowOfSlope(slope));
  }

  /** When the recent accumulation/distribution values lie on a line, the
      detector classifies that line's slope. */
  lemma LinearAdlFlow(data: seq<OHLCV>, lookback: int, a: real, b: real)
    requires |data| - 10 >= Lookback(lookback)
    requires var results := VolumeSeries(data, 10, 5).value;
             Regression.OnLine(AdlValues(results[|results| - Lookback(lookback)..]), a, b)
    ensures AccumulationOf(data, lookback) == Ok(FlowOfSlope(b))
  {
    var results := VolumeSeries(data, 10, 5).value;
    Regression.SlopeOfLine(AdlValues(results[|results| - Lookback(lookback)..]), a, b);
    SlopeClassified(data, lookback, results, b);
  }

  // ---------------------------------------------------------------------------
  // The volume strategy

  /** The direction of on-balance volume over the last three results. */
  datatype ObvDirection = Rising | Falling | Sideways {
    function ToString(): string {
      match this
      case Rising => "rising"
      case Falling => "falling"
      case Sideways => "sideways"
    }
  }

  /** Rising or falling only when the last three values move strictly the
      same way; otherwise, and with fewer than three results, sideways. */
  function ObvTrend(results: seq<VolumeResult>): (d: ObvDirection)
    ensures d == Rising <==>
              (|results| >= 3 && results[|results| - 3].obv < results[|results| - 2].obv < results[|results| - 1].obv)
    ensures d == Falling <==>
              (|results| >= 3 && results[|results| - 3].obv > results[|results| - 2].obv > results[|results| - 1].obv)
  {
    if |results| >= 3 then
      var recent := results[|results| - 3..];
      assert recent[0] == results[|results| - 3] && recent[1] == results[|results| - 2] && recent[2] == results[|results| - 1];
      if recent[2].obv > recent[1].obv && recent[1].obv > recent[0].obv then Rising
      else if recent[2].obv < recent[1].obv && recent[1].obv < recent[0].obv then Falling
      else Sideways
    else Sideways
  }

  /** The volume strategy's trading signal. */
  datatype VolumeAction = StrongBuy | StrongSell | Buy | Sell | Accumulate | Distribute | LowVolumeAlert | Hold {
    function ToString(): string {
      match this
      case StrongBuy => "strong_buy"
      case StrongSell => "strong_sell"
      case Buy => "buy"
      case Sell => "sell"
      case Accumulate => "accumulate"
      case Distribute => "distribute"
      case LowVolumeAlert => "low_volume_alert"
      case Hold => "hold"
    }
  }

  /** A breakout with a bullish or bearish trend. */
  predicate DirectionalBreakout(breakout: VolumeSignal)
  {
    breakout.kind == Breakout && (breakout.trend == Bullish || breakout.trend == Bearish)
  }

  /** The first matching rule: a directional breakout decides first (strong
      when the money flow agrees), then money flow confirmed by on-balance
      volume, then volume below half its average, else hold. */
  function ActionOf(breakout: VolumeSignal, accumulation: VolumeSignal, obvTrend: ObvDirection, ratio: Ratio)
    : (a: VolumeAction)
    ensures breakout.kind == Breakout && breakout.trend == Bullish <==> a == StrongBuy || a == Buy
    ensures breakout.kind == Breakout && breakout.trend == Bearish <==> a == StrongSell || a == Sell
    ensures a == StrongBuy <==> breakout.kind == Breakout && breakout.trend == Bullish && accumulation.kind == Accumulation
    ensures a == StrongSell <==> breakout.kind == Breakout && breakout.trend == Bearish && accumulation.kind == Distribution
    ensures a == Accumulate <==> !DirectionalBreakout(breakout) && accumulation.kind == Accumulation && obvTrend == Rising
    ensures a == Distribute <==> !DirectionalBreakout(breakout) && accumulation.kind == Distribution && obvTrend == Falling
    ensures a == LowVolumeAlert <==>
              !DirectionalBreakout(breakout) && !(accumulation.kind == Accumulation && obvTrend == Rising) &&
              !(accumulation.kind == Distribution && obvTrend == Falling) && ratio.Below(0.5)
    ensures a == Hold <==>
              !DirectionalBreakout(breakout) && !(accumulation.kind == Accumulation && obvTrend == Rising) &&
              !(accumulation.kind == Distribution && obvTrend == Falling) && !ratio.Below(0.5)
  {
    if breakout.kind == Breakout && breakout.trend == Bullish && accumulation.kind == Accumulation then StrongBuy
    else if breakout.kind == Breakout && breakout.trend == Bearish && accumulation.kind == Distribution then StrongSell
    else if breakout.kind == Breakout && breakout.trend == Bullish then Buy
    else if breakout.kind == Breakout && breakout.trend == Bearish then Sell
    else if accumulation.kind == Accumulation && obvTrend == Rising then Accumulate
    else if accumulation.kind == Distribution && obvTrend == Falling then Distribute
    else if ratio.Below(0.5) then LowVolumeAlert
    else Hold
  }

  datatype VolumeStrategy = VolumeStrategy(
    current: VolumeResult,
    breakoutSignal: VolumeSignal,
    accumulationSignal: VolumeSignal,
    volumeRatio: Ratio,
    obvTrend: ObvDirection,
    signal: VolumeAction)

  /** The volume strategy: the latest analysis, a breakout check with
      multiplier 2, the money flow over 10 results, the on-balance-volume
      direction and the signal they decide. */
  function AnalyzeVolumeStrategy(data: seq<OHLCV>, vmaPeriod: int, vrocPeriod: int): (r: Result<VolumeStrategy>)
    ensures r.Ok? <==> 0 < vmaPeriod && 0 < vrocPeriod && |data| > MaxPeriod(vmaPeriod, vrocPeriod) &&
                       |data| > MaxPeriod(vmaPeriod, 5) && |data| > 10
    ensures r.Err? && VolumeSeries(data, vmaPeriod, vrocPeriod).Err? ==> r.error == VolumeSeries(data, vmaPeriod, vrocPeriod).error
    ensures VolumeSeries(data, vmaPeriod, vrocPeriod).Ok? && DetectVolumeBreakout(data, vmaPeriod, 2.0).Err? ==>
              r == Err(VolumeSeries(data, vmaPeriod, 5).error)
    ensures VolumeSeries(data, vmaPeriod, vrocPeriod).Ok? && DetectVolumeBreakout(data, vmaPeriod, 2.0).Ok? &&
            AccumulationOf(data, 10).Err? ==>
              r == Err(VolumeSeries(data, 10, 5).error)
    ensures r.Ok? ==>
              r.value.current == VolumeAt(data, vmaPeriod, vrocPeriod, |data| - MaxPeriod(vmaPeriod, vrocPeriod) - 1) &&
              r.value.volumeRatio == Quotient(r.value.current.volume, r.value.current.vma) &&
              r.value.breakoutSignal == DetectVolumeBreakout(data, vmaPeriod, 2.0).value &&
              r.value.accumulationSignal == AccumulationOf(data, 10).value &&
              r.value.obvTrend == ObvTrend(VolumeSeries(data, vmaPeriod, vrocPeriod).value) &&
              r.value.signal == ActionOf(r.value.breakoutSignal, r.value.accumulationSignal, r.value.obvTrend, r.value.volumeRatio)
  {
    var current :- GetLatestVolumeAnalysis(data, vmaPeriod, vrocPeriod);
    var breakoutSignal :- DetectVolumeBreakout(data, vmaPeriod, 2.0);
    var accumulationSignal :- AccumulationOf(data, 10);
    var volumeRatio := Quotient(current.volume, current.vma);
    var obvTrend := match VolumeSeries(data, vmaPeriod, vrocPeriod)
                    case Ok(results) => ObvTrend(results)
                    case Err(_) => Sideways;
    Ok(VolumeStrategy(current, breakoutSignal, accumulationSignal, volumeRatio, obvTrend,
                      ActionOf(breakoutSignal, accumulationSignal, obvTrend, volumeRatio)))
  }

  /** With constant closes on-balance volume never moves, so the strategy
      sees it sideways. */
  lemma ConstantClosesSideways(data: seq<OHLCV>, vmaPeriod: int, vrocPeriod: int)
    requires AnalyzeVolumeStrategy(data, vmaPeriod, vrocPeriod).Ok?
    requires forall i :: 0 <= i < |data| ==> data[i].close == data[0].close
    ensures AnalyzeVolumeStrategy(data, vmaPeriod, vrocPeriod).value.obvTrend == Sideways
  {
    ConstantClosesKeepObvAndVpt(data, vmaPeriod, vrocPeriod);
  }
}
