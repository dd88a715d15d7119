/** Price bars (types.go) and the price selector every engine reads them through. */
module Bars {

  /** Bar timestamps are carried through the engines unchanged and never
      inspected, so any totally ordered value does; formatting is not modelled. */
  type Timestamp = int

  /** One candle: open, high, low, close and volume over one interval. */
  datatype OHLCV = OHLCV(
    timestamp: Timestamp,
    open: real,
    high: real,
    low: real,
    close: real,
    volume: real)

  /** The selector is an integer enumeration; values outside 0..5 are legal
      and fall back to the close. */
  type PriceType = int

  const ClosePrice: PriceType := 0
  const OpenPrice: PriceType := 1
  const HighPrice: PriceType := 2
  const LowPrice: PriceType := 3
  const TypicalPrice: PriceType := 4   // (high + low + close) / 3
  const WeightedPrice: PriceType := 5  // (high + low + 2 * close) / 4

  /** The selected price of one bar. The two derived prices are averages of
      the bar's own prices, so they stay inside the bar's range. */
  function ExtractPrice(bar: OHLCV, priceType: PriceType): (price: real)
    ensures (priceType == TypicalPrice || priceType == WeightedPrice) && bar.low <= bar.close <= bar.high
            ==> bar.low <= price <= bar.high
  {
    if priceType == OpenPrice then bar.open
    else if priceType == ClosePrice then bar.close
    else if priceType == HighPrice then bar.high
    else if priceType == LowPrice then bar.low
    else if priceType == TypicalPrice then (bar.high + bar.low + bar.close) / 3.0
    else if priceType == WeightedPrice then (bar.high + bar.low + 2.0 * bar.close) / 4.0
    else bar.close
  }

  /** Each named selector picks its field; anything else picks the close. */
  lemma SelectorFields(bar: OHLCV, priceType: PriceType)
    ensures ExtractPrice(bar, OpenPrice) == bar.open
    ensures ExtractPrice(bar, ClosePrice) == bar.close
    ensures ExtractPrice(bar, HighPrice) == bar.high
    ensures ExtractPrice(bar, LowPrice) == bar.low
    ensures ExtractPrice(bar, TypicalPrice) == (bar.high + bar.low + bar.close) / 3.0
    ensures ExtractPrice(bar, WeightedPrice) == (bar.high + bar.low + 2.0 * bar.close) / 4.0
    ensures !(ClosePrice <= priceType <= WeightedPrice) ==> ExtractPrice(bar, priceType) == bar.close
  {
  }

  /** The selected price of every bar, in order. */
  function Prices(data: seq<OHLCV>, priceType: PriceType): (prices: seq<real>)
    ensures |prices| == |data|
    ensures forall i :: 0 <= i < |data| ==> prices[i] == ExtractPrice(data[i], priceType)
  {
    seq(|data|, i requires 0 <= i < |data| => ExtractPrice(data[i], priceType))
  }

  /** The volume of every bar, in order. */
  function Volumes(data: seq<OHLCV>): (volumes: seq<real>)
    ensures |volumes| == |data|
    ensures forall i :: 0 <= i < |data| ==> volumes[i] == data[i].volume
  {
    seq(|data|, i requires 0 <= i < |data| => data[i].volume)
  }
}
