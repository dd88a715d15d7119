/** The signal fusion (techIndicators.go): the technical analysis counts the
    votes of the moving-average, Bollinger and RSI signals and overrides them
    on extreme conditions; the ultimate analysis checks that verdict against
    the volume strategy, grades the rug-pull risk and adjusts the confidence. */
module Fusion {
  import opened Outcomes
  import opened Bars
  import MovingAverage
  import Bollinger
  import Rsi
  import Volume

  // ---------------------------------------------------------------------------
  // Tags

  /** The moving-average signal. */
  datatype SmaSignal = StrongBullish | StrongBearish | Bullish | Bearish {
    function ToString(): string {
      match this
      case StrongBullish => "strong_bullish"
      case StrongBearish => "strong_bearish"
      case Bullish => "bullish"
      case Bearish => "bearish"
    }
  }

  /** The final verdict of either analysis. */
  datatype Verdict = StrongBuy | Buy | StrongSell | Sell | Wait | Hold | Suspicious {
    function ToString(): string {
      match this
      case StrongBuy => "STRONG BUY"
      case Buy => "BUY"
      case StrongSell => "STRONG SELL"
      case Sell => "SELL"
      case Wait => "WAIT"
      case Hold => "HOLD"
      case Suspicious => "SUSPICIOUS"
    }
  }

  /** A confidence or risk level. */
  datatype Level = Low | Medium | High {
    function ToString(): string {
      match this
      case Low => "LOW"
      case Medium => "MEDIUM"
      case High => "HIGH"
    }

    function Rank(): nat {
      match this
      case Low => 0
      case Medium => 1
      case High => 2
    }
  }

  datatype RugPullRisk = LowRug | MediumRug | HighRug | ExtremeRug {
    function ToString(): string {
      match this
      case LowRug => "low"
      case MediumRug => "medium"
      case HighRug => "high"
      case ExtremeRug => "extreme"
    }
  }

  /** A verdict with its confidence and risk. */
  datatype Decision = Decision(finalSignal: Verdict, confidence: Level, riskLevel: Level)

  /** The technical analysis. A constituent that failed leaves its signal
      unset (`None`), as the source's zero-valued string. */
  datatype CombinedTechnicalAnalysis = CombinedTechnicalAnalysis(
    smaSignal: SmaSignal,
    bollingerSignal: Option<Bollinger.Signal>,
    rsiSignal: Option<Rsi.RsiSignal>,
    finalSignal: Verdict,
    confidence: Level,
    riskLevel: Level)

  // ---------------------------------------------------------------------------
  // The moving-average signal

  /** Go's `n / 2`, which truncates toward zero. */
  function Half(n: int): (h: int)
    ensures n >= 0 ==> 0 <= 2 * h <= n < 2 * h + 2
    ensures n < 0 ==> 2 * h - 2 < n <= 2 * h <= 0
  {
    if n >= 0 then n / 2 else -((-n) / 2)
  }

  /** Above the moving average the signal is bullish, otherwise bearish;
      strong when the crossover points the same way. A failed comparison
      counts as "not above", a failed crossover as no crossover. */
  function SmaSignalOf(isAboveSMA: bool, smaCross: Option<MovingAverage.Crossover>): (s: SmaSignal)
    ensures s == StrongBullish || s == Bullish <==> isAboveSMA
    ensures s == StrongBullish <==> isAboveSMA && smaCross == Some(MovingAverage.Crossover.BullishCrossover)
    ensures s == StrongBearish <==> !isAboveSMA && smaCross == Some(MovingAverage.Crossover.BearishCrossover)
  {
    if isAboveSMA && smaCross == Some(MovingAverage.Crossover.BullishCrossover) then StrongBullish
    else if !isAboveSMA && smaCross == Some(MovingAverage.Crossover.BearishCrossover) then StrongBearish
    else if isAboveSMA then Bullish
    else Bearish
  }

  // ---------------------------------------------------------------------------
  // Votes

  datatype Side = BullishSide | BearishSide | Abstain

  /** The side a signal name votes for. */
  function SideOf(signal: string): (side: Side)
    ensures side == BullishSide <==> signal in {"strong_buy", "buy", "bullish", "strong_bullish"}
    ensures side == BearishSide <==> signal in {"strong_sell", "sell", "bearish", "strong_bearish"}
  {
    if signal == "strong_buy" || signal == "buy" || signal == "bullish" || signal == "strong_bullish" then BullishSide
    else if signal == "strong_sell" || signal == "sell" || signal == "bearish" || signal == "strong_bearish" then BearishSide
    else Abstain
  }

  /** The number of signals voting for `side`. */
  function Votes(signals: seq<string>, side: Side): nat
    decreases |signals|
  {
    if |signals| == 0 then 0
    else Votes(signals[..|signals| - 1], side) + (if SideOf(signals[|signals| - 1]) == side then 1 else 0)
  }

  /** Every signal is counted at most once, on at most one side. */
  lemma {:induction false} VotesBounded(signals: seq<string>)
    ensures Votes(signals, BullishSide) + Votes(signals, BearishSide) <= |signals|
    decreases |signals|
  {
    if |signals| > 0 {
      VotesBounded(signals[..|signals| - 1]);
    }
  }

  /** The moving-average signal always votes: it is never neutral. */
  lemma SmaSignalVotes(s: SmaSignal)
    ensures SideOf(s.ToString()) != Abstain
    ensures SideOf(s.ToString()) == BullishSide <==> s == StrongBullish || s == Bullish
  {
  }

  /** The Bollinger strategy's "buy_signal", "sell_signal" and
      "wait_for_breakout" and an unset signal vote for neither side. */
  lemma BollingerAbstentions()
    ensures SideOf(Bollinger.Signal.BuySignal.ToString()) == Abstain
    ensures SideOf(Bollinger.Signal.SellSignal.ToString()) == Abstain
    ensures SideOf(Bollinger.Signal.WaitForBreakout.ToString()) == Abstain
    ensures SideOf("") == Abstain
  {
  }

  // ---------------------------------------------------------------------------
  // The verdict

  /** The vote table, first match wins: three bullish votes, two bullish,
      three bearish, two bearish, a Bollinger squeeze waiting for a breakout,
      else hold. */
  function VoteDecision(bullishCount: nat, bearishCount: nat, waitForBreakout: bool): (d: Decision)
    ensures bullishCount >= 2 ==> d.finalSignal == StrongBuy || d.finalSignal == Buy
    ensures bullishCount < 2 && bearishCount >= 2 ==> d.finalSignal == StrongSell || d.finalSignal == Sell
    ensures d.finalSignal == StrongBuy <==> bullishCount >= 3
    ensures d.finalSignal == Buy <==> bullishCount == 2
    ensures d.finalSignal == StrongSell <==> bullishCount < 2 && bearishCount >= 3
    ensures d.finalSignal == Sell <==> bullishCount < 2 && bearishCount == 2
    ensures d.finalSignal == Wait <==> bullishCount < 2 && bearishCount < 2 && waitForBreakout
    ensures d.finalSignal == Hold <==> bullishCount < 2 && bearishCount < 2 && !waitForBreakout
    ensures d.confidence == High <==> d.finalSignal in {StrongBuy, StrongSell, Wait}
    ensures d.confidence == Medium <==> d.finalSignal in {Buy, Sell}
    ensures d.riskLevel == Low <==> d.finalSignal in {StrongBuy, Buy, Wait}
    ensures d.riskLevel == High <==> d.finalSignal == StrongSell
    ensures d.riskLevel == Medium <==> d.finalSignal in {Sell, Hold}
  {
    if bullishCount >= 3 then Decision(StrongBuy, High, Low)
    else if bullishCount >= 2 then Decision(Buy, Medium, Low)
    else if bearishCount >= 3 then Decision(StrongSell, High, High)
    else if bearishCount >= 2 then Decision(Sell, Medium, Medium)
    else if waitForBreakout then Decision(Wait, High, Low)
    else Decision(Hold, Low, Medium)
  }

  /** With three signals at most one side can reach two votes, so the order
      of the bullish and bearish rows never matters. */
  lemma VoteSidesExclusive(signals: seq<string>)
    requires |signals| == 3
    ensures !(Votes(signals, BullishSide) >= 2 && Votes(signals, BearishSide) >= 2)
    ensures Votes(signals, BullishSide) <= 3 && Votes(signals, BearishSide) <= 3
  {
    VotesBounded(signals);
  }

  /** An RSI extreme high with the price above the upper band forces a
      strong sell, an extreme low below the lower band a strong buy,
      whatever the votes said. */
  function ExtremeOverride(d: Decision, rsiCondition: Option<Rsi.Zone>, bbPosition: Option<Bollinger.Position>)
    : (e: Decision)
    ensures rsiCondition == Some(Rsi.Zone.ExtremeHigh) && bbPosition == Some(Bollinger.Position.AboveUpper) ==>
              e == Decision(StrongSell, High, High)
    ensures rsiCondition == Some(Rsi.Zone.ExtremeLow) && bbPosition == Some(Bollinger.Position.BelowLower) ==>
              e == Decision(StrongBuy, High, Low)
    ensures e != d ==> (rsiCondition == Some(Rsi.Zone.ExtremeHigh) && bbPosition == Some(Bollinger.Position.AboveUpper)) ||
                       (rsiCondition == Some(Rsi.Zone.ExtremeLow) && bbPosition == Some(Bollinger.Position.BelowLower))
  {
    if rsiCondition == Some(Rsi.Zone.ExtremeHigh) && bbPosition == Some(Bollinger.Position.AboveUpper) then Decision(StrongSell, High, High)
    else if rsiCondition == Some(Rsi.Zone.ExtremeLow) && bbPosition == Some(Bollinger.Position.BelowLower) then Decision(StrongBuy, High, Low)
    else d
  }

  /** The three signals that vote: the moving-average signal and the names
      of the Bollinger and RSI signals, empty when that strategy failed. */
  function SignalNames(smaSignal: SmaSignal, bollingerSignal: Option<Bollinger.Signal>, rsiSignal: Option<Rsi.RsiSignal>)
    : (names: seq<string>)
    ensures |names| == 3 && names[0] == smaSignal.ToString()
    ensures bollingerSignal.Some? ==> names[1] == bollingerSignal.value.ToString()
    ensures bollingerSignal.None? ==> names[1] == ""
    ensures rsiSignal.Some? ==> names[2] == rsiSignal.value.ToString()
    ensures rsiSignal.None? ==> names[2] == ""
  {
    [smaSignal.ToString(),
     match bollingerSignal case Some(s) => s.ToString() case None => "",
     match rsiSignal case Some(s) => s.ToString() case None => ""]
  }

  /** The signal of a successful strategy, unset when it failed. */
  function BollingerSignal(bb: Result<Bollinger.BollingerStrategy>): Option<Bollinger.Signal> {
    match bb case Ok(s) => Some(s.signal) case Err(_) => None
  }

  function RsiSignal(rsi: Result<Rsi.RsiStrategy>): Option<Rsi.RsiSignal> {
    match rsi case Ok(s) => Some(s.signal) case Err(_) => None
  }

  /** The moving-average signal of a dataset: price against the average of
      `smaPeriod`, and the crossover of half that period with the whole. */
  function SmaSignalOfData(data: seq<OHLCV>, smaPeriod: int, priceType: PriceType): SmaSignal {
    var isAboveSMA := match MovingAverage.IsPriceAboveSMA(data, smaPeriod, priceType) case Ok(b) => b case Err(_) => false;
    var smaCross := match MovingAverage.SMACrossover(data, Half(smaPeriod), smaPeriod, priceType)
                    case Ok(c) => Some(c) case Err(_) => None;
    SmaSignalOf(isAboveSMA, smaCross)
  }

  /** The condition of a successful RSI strategy, unset when it failed. */
  function RsiCondition(rsi: Result<Rsi.RsiStrategy>): Option<Rsi.Zone> {
    match rsi case Ok(s) => Some(s.condition) case Err(_) => None
  }

  /** The position of a successful Bollinger strategy, unset when it failed. */
  function BollingerPosition(bb: Result<Bollinger.BollingerStrategy>): Option<Bollinger.Position> {
    match bb case Ok(s) => Some(s.position) case Err(_) => None
  }

  /** The fusion rules over the three constituents: the vote table, then the
      extreme override. The verdict is never "SUSPICIOUS". */
  function Combine(smaSignal: SmaSignal, bb: Result<Bollinger.BollingerStrategy>, rsi: Result<Rsi.RsiStrategy>)
    : (t: CombinedTechnicalAnalysis)
    ensures t.smaSignal == smaSignal && t.bollingerSignal == BollingerSignal(bb) && t.rsiSignal == RsiSignal(rsi)
    ensures t.finalSignal != Suspicious
    ensures rsi.Ok? && rsi.value.condition == Rsi.Zone.ExtremeHigh && bb.Ok? && bb.value.position == Bollinger.Position.AboveUpper ==>
              t.finalSignal == StrongSell && t.confidence == High && t.riskLevel == High
    ensures rsi.Ok? && rsi.value.condition == Rsi.Zone.ExtremeLow && bb.Ok? && bb.value.position == Bollinger.Position.BelowLower ==>
              t.finalSignal == StrongBuy && t.confidence == High && t.riskLevel == Low
    ensures var names := SignalNames(smaSignal, BollingerSignal(bb), RsiSignal(rsi));
            !(RsiCondition(rsi) == Some(Rsi.Zone.ExtremeHigh) && BollingerPosition(bb) == Some(Bollinger.Position.AboveUpper)) &&
            !(RsiCondition(rsi) == Some(Rsi.Zone.ExtremeLow) && BollingerPosition(bb) == Some(Bollinger.Position.BelowLower)) ==>
              Decision(t.finalSignal, t.confidence, t.riskLevel) ==
              VoteDecision(Votes(names, BullishSide), Votes(names, BearishSide),
                           BollingerSignal(bb) == Some(Bollinger.Signal.WaitForBreakout))
  {
    var signals := SignalNames(smaSignal, BollingerSignal(bb), RsiSignal(rsi));
    var d := VoteDecision(Votes(signals, BullishSide), Votes(signals, BearishSide),
                          BollingerSignal(bb) == Some(Bollinger.Signal.WaitForBreakout));
    var e := ExtremeOverride(d, RsiCondition(rsi), BollingerPosition(bb));
    CombinedTechnicalAnalysis(smaSignal, BollingerSignal(bb), RsiSignal(rsi), e.finalSignal, e.confidence, e.riskLevel)
  }

  /** What ComprehensiveAnalysis computes. It never fails: a constituent's
      error is dropped and its strategy left unset. */
  function TechnicalAnalysisOf(data: seq<OHLCV>, smaPeriod: int, bbPeriod: int, rsiPeriod: int, bbMultiplier: real,
                               priceType: PriceType, sqrt: real -> real): CombinedTechnicalAnalysis
  {
    Combine(SmaSignalOfData(data, smaPeriod, priceType),
            Bollinger.AnalyzeBollingerStrategy(data, bbPeriod, bbMultiplier, priceType, sqrt),
            Rsi.AnalyzeRSIStrategy(data, rsiPeriod, priceType))
  }

  /** The vote-counting loop over the three signals. */
  method CountVotes(signals: seq<string>) returns (bullishCount: nat, bearishCount: nat)
    ensures bullishCount == Votes(signals, BullishSide)
    ensures bearishCount == Votes(signals, BearishSide)
    ensures bullishCount + bearishCount <= |signals|
  {
    VotesBounded(signals);
    bullishCount, bearishCount := 0, 0;
    for i := 0 to |signals|
      invariant bullishCount == Votes(signals[..i], BullishSide)
      invariant bearishCount == Votes(signals[..i], BearishSide)
    {
      assert signals[..i + 1][..i] == signals[..i];
      var signal := signals[i];
      if signal == "strong_buy" || signal == "buy" || signal == "bullish" || signal == "strong_bullish" {
        bullishCount := bullishCount + 1;
      } else if signal == "strong_sell" || signal == "sell" || signal == "bearish" || signal == "strong_bearish" {
        bearishCount := bearishCount + 1;
      }
    }
    assert signals[..|signals|] == signals;
  }

  /** The technical analysis, computed as the source does: every
      constituent's error is dropped. */
  method ComprehensiveAnalysis(data: seq<OHLCV>, smaPeriod: int, bbPeriod: int, rsiPeriod: int, bbMultiplier: real,
                               priceType: PriceType, sqrt: real -> real) returns (t: CombinedTechnicalAnalysis)
    ensures t == TechnicalAnalysisOf(data, smaPeriod, bbPeriod, rsiPeriod, bbMultiplier, priceType, sqrt)
  {
    var smaSignal := SmaSignalOfData(data, smaPeriod, priceType);
    var bbStrategy := Bollinger.AnalyzeBollingerStrategy(data, bbPeriod, bbMultiplier, priceType, sqrt);
    var rsiStrategy := Rsi.AnalyzeRSIStrategy(data, rsiPeriod, priceType);
    t := Fuse(smaSignal, bbStrategy, rsiStrategy);
  }

  /** The vote count, the vote table and the extreme override. */
  method Fuse(smaSignal: SmaSignal, bbStrategy: Result<Bollinger.BollingerStrategy>, rsiStrategy: Result<Rsi.RsiStrategy>)
    returns (t: CombinedTechnicalAnalysis)
    ensures t == Combine(smaSignal, bbStrategy, rsiStrategy)
  {
    var signals := SignalNames(smaSignal, BollingerSignal(bbStrategy), RsiSignal(rsiStrategy));
    var bullishCount, bearishCount := CountVotes(signals);
    var d := VoteDecision(bullishCount, bearishCount, BollingerSignal(bbStrategy) == Some(Bollinger.Signal.WaitForBreakout));
    if rsiStrategy.Ok? && rsiStrategy.value.condition == Rsi.Zone.ExtremeHigh &&
       bbStrategy.Ok? && bbStrategy.value.position == Bollinger.Position.AboveUpper {
      d := Decision(StrongSell, High, High);
    } else if rsiStrategy.Ok? && rsiStrategy.value.condition == Rsi.Zone.ExtremeLow &&
              bbStrategy.Ok? && bbStrategy.value.position == Bollinger.Position.BelowLower {
      d := Decision(StrongBuy, High, Low);
    }
    t := CombinedTechnicalAnalysis(smaSignal, BollingerSignal(bbStrategy), RsiSignal(rsiStrategy),
                                   d.finalSignal, d.confidence, d.riskLevel);
  }

  // ---------------------------------------------------------------------------
  // The ultimate analysis

  /** Volume confirms a buying verdict with buying volume, a selling verdict
      with selling volume, and a wait with volume below its average. */
  function VolumeConfirms(finalSignal: Verdict, volumeSignal: Volume.VolumeAction, volumeRatio: Volume.Ratio): (c: bool)
    ensures finalSignal == Hold || finalSignal == Suspicious ==> !c
    ensures (finalSignal == StrongBuy || finalSignal == Buy) ==>
              (c <==> volumeSignal in {Volume.VolumeAction.StrongBuy, Volume.VolumeAction.Buy, Volume.VolumeAction.Accumulate})
    ensures (finalSignal == StrongSell || finalSignal == Sell) ==>
              (c <==> volumeSignal in {Volume.VolumeAction.StrongSell, Volume.VolumeAction.Sell, Volume.VolumeAction.Distribute})
    ensures finalSignal == Wait ==> (c <==> volumeRatio.Below(1.0))
  {
    if (finalSignal == StrongBuy || finalSignal == Buy) &&
       (volumeSignal == Volume.VolumeAction.StrongBuy || volumeSignal == Volume.VolumeAction.Buy || volumeSignal == Volume.VolumeAction.Accumulate) then true
    else if (finalSignal == StrongSell || finalSignal == Sell) &&
            (volumeSignal == Volume.VolumeAction.StrongSell || volumeSignal == Volume.VolumeAction.Sell || volumeSignal == Volume.VolumeAction.Distribute) then true
    else finalSignal == Wait && volumeRatio.Below(1.0)
  }

  /** The rug-pull grade, most severe first. The extreme grade looks at the
      RSI strategy's own signal, not at the technical verdict. */
  function RugPullOf(volumeSignal: Volume.VolumeAction, flow: Volume.FlowType, rsiSignal: Option<Rsi.RsiSignal>,
                     volumeRatio: Volume.Ratio, finalSignal: Verdict): (risk: RugPullRisk)
    ensures risk == ExtremeRug <==> volumeSignal == Volume.VolumeAction.StrongSell && flow == Volume.FlowType.Distribution &&
                                    rsiSignal == Some(Rsi.RsiSignal.StrongSell) && volumeRatio.Above(3.0)
    ensures risk == HighRug <==> risk != ExtremeRug && flow == Volume.FlowType.Distribution && finalSignal == StrongSell
    ensures risk == MediumRug <==>
              risk != ExtremeRug && !(flow == Volume.FlowType.Distribution && finalSignal == StrongSell) &&
              (volumeSignal == Volume.VolumeAction.Distribute || (volumeRatio.Above(2.0) && finalSignal == Sell))
    ensures risk == LowRug <==>
              risk != ExtremeRug && !(flow == Volume.FlowType.Distribution && finalSignal == StrongSell) &&
              volumeSignal != Volume.VolumeAction.Distribute && !(volumeRatio.Above(2.0) && finalSignal == Sell)
  {
    if volumeSignal == Volume.VolumeAction.StrongSell && flow == Volume.FlowType.Distribution &&
       rsiSignal == Some(Rsi.RsiSignal.StrongSell) && volumeRatio.Above(3.0) then ExtremeRug
    else if flow == Volume.FlowType.Distribution && finalSignal == StrongSell then HighRug
    else if volumeSignal == Volume.VolumeAction.Distribute || (volumeRatio.Above(2.0) && finalSignal == Sell) then MediumRug
    else LowRug
  }

  /** The extreme grade holds whatever the technical verdict is. */
  lemma ExtremeRugIgnoresVerdict(volumeRatio: Volume.Ratio, finalSignal: Verdict)
    requires volumeRatio.Above(3.0)
    ensures RugPullOf(Volume.VolumeAction.StrongSell, Volume.FlowType.Distribution, Some(Rsi.RsiSignal.StrongSell), volumeRatio, finalSignal) == ExtremeRug
  {
  }

  /** One notch more confidence. */
  function Raise(level: Level): (r: Level)
    ensures r.Rank() == if level == High then 2 else level.Rank() + 1
  {
    match level
    case Low => Medium
    case Medium => High
    case High => High
  }

  /** Confirmation raises the confidence one notch and keeps the verdict.
      Without it high confidence drops to medium and a strong verdict to its
      plain form, medium confidence drops to low and the verdict to hold, and
      low confidence stays as it is. */
  function ConfirmAdjust(finalSignal: Verdict, confidence: Level, volumeConfirm: bool): (d: (Verdict, Level))
    ensures volumeConfirm ==> d.0 == finalSignal && d.1 == Raise(confidence)
    ensures !volumeConfirm && confidence == High ==>
              d.1 == Medium &&
              d.0 == (if finalSignal == StrongBuy then Buy else if finalSignal == StrongSell then Sell else finalSignal)
    ensures !volumeConfirm && confidence == Medium ==> d == (Hold, Low)
    ensures !volumeConfirm && confidence == Low ==> d == (finalSignal, Low)
    ensures volumeConfirm <==> d.1.Rank() >= confidence.Rank() && (d.1 != confidence || confidence == High) &&
                               (confidence == High ==> d.0 == finalSignal)
  {
    if volumeConfirm then
      (finalSignal, Raise(confidence))
    else if confidence == High then
      (if finalSignal == StrongBuy then Buy else if finalSignal == StrongSell then Sell else finalSignal, Medium)
    else if confidence == Medium then
      (Hold, Low)
    else
      (finalSignal, confidence)
  }

  /** The ultimate analysis. */
  datatype UltimateMemecoinAnalysis = UltimateMemecoinAnalysis(
    technical: CombinedTechnicalAnalysis,
    volume: Volume.VolumeStrategy,
    finalSignal: Verdict,
    confidence: Level,
    riskLevel: Level,
    rugPullRisk: RugPullRisk,
    volumeConfirm: bool)

  /** The ultimate verdict from a technical analysis and a volume strategy:
      a low-volume alert overrides everything with a suspicious, low
      confidence, high risk verdict; otherwise the risk is the technical one. */
  function UltimateOf(technical: CombinedTechnicalAnalysis, volume: Volume.VolumeStrategy): (u: UltimateMemecoinAnalysis)
    ensures u.technical == technical && u.volume == volume
    ensures u.volumeConfirm == VolumeConfirms(technical.finalSignal, volume.signal, volume.volumeRatio)
    ensures u.rugPullRisk == RugPullOf(volume.signal, volume.accumulationSignal.kind, technical.rsiSignal,
                                       volume.volumeRatio, technical.finalSignal)
    ensures volume.signal == Volume.VolumeAction.LowVolumeAlert ==>
              u.finalSignal == Suspicious && u.confidence == Low && u.riskLevel == High
    ensures volume.signal != Volume.VolumeAction.LowVolumeAlert ==>
              u.riskLevel == technical.riskLevel &&
              (u.finalSignal, u.confidence) == ConfirmAdjust(technical.finalSignal, technical.confidence, u.volumeConfirm)
  {
    var volumeConfirm := VolumeConfirms(technical.finalSignal, volume.signal, volume.volumeRatio);
    var rugPullRisk := RugPullOf(volume.signal, volume.accumulationSignal.kind, technical.rsiSignal,
                                 volume.volumeRatio, technical.finalSignal);
    var adjusted := ConfirmAdjust(technical.finalSignal, technical.confidence, volumeConfirm);
    if volume.signal == Volume.VolumeAction.LowVolumeAlert then
      UltimateMemecoinAnalysis(technical, volume, Suspicious, Low, High, rugPullRisk, volumeConfirm)
    else
      UltimateMemecoinAnalysis(technical, volume, adjusted.0, adjusted.1, technical.riskLevel, rugPullRisk, volumeConfirm)
  }

  /** The technical verdict is never suspicious, so only a low-volume alert
      makes the ultimate verdict so. */
  lemma SuspiciousOnlyOnLowVolume(data: seq<OHLCV>, smaPeriod: int, bbPeriod: int, rsiPeriod: int, bbMultiplier: real,
                                  sqrt: real -> real, volume: Volume.VolumeStrategy)
    ensures var technical := TechnicalAnalysisOf(data, smaPeriod, bbPeriod, rsiPeriod, bbMultiplier, ClosePrice, sqrt);
            UltimateOf(technical, volume).finalSignal == Suspicious <==> volume.signal == Volume.VolumeAction.LowVolumeAlert
  {
  }

  /** The ultimate analysis: the technical analysis on closing prices and the
      volume strategy with a rate-of-change period of 5; only the volume
      strategy can fail. */
  method UltimateAnalysis(data: seq<OHLCV>, smaPeriod: int, bbPeriod: int, rsiPeriod: int, vmaPeriod: int,
                          bbMultiplier: real, sqrt: real -> real) returns (r: Result<UltimateMemecoinAnalysis>)
    ensures r.Ok? <==> Volume.AnalyzeVolumeStrategy(data, vmaPeriod, 5).Ok?
    ensures r.Err? ==> r.error == Volume.AnalyzeVolumeStrategy(data, vmaPeriod, 5).error
    ensures r.Ok? ==> r.value == UltimateOf(TechnicalAnalysisOf(data, smaPeriod, bbPeriod, rsiPeriod, bbMultiplier, ClosePrice, sqrt),
                                            Volume.AnalyzeVolumeStrategy(data, vmaPeriod, 5).value)
  {
    var technical := ComprehensiveAnalysis(data, smaPeriod, bbPeriod, rsiPeriod, bbMultiplier, ClosePrice, sqrt);
    var volume := Volume.AnalyzeVolumeStrategy(data, vmaPeriod, 5);
    if volume.Err? {
      return Err(volume.error);
    }
    r := Ok(UltimateOf(technical, volume.value));
  }
}
