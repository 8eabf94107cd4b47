/** The four statistical strategy agents of `trading_agents/agents.py`. Each reads the
    last value of some rolling statistics of the series and returns one recommendation.
    The recommendation's timestamp is not modelled. */
module Agents {
  import opened Stats
  import opened Market

  datatype Action = Buy | Sell | Hold

  datatype Recommendation = Recommendation(
    agent: string,
    action: Action,
    confidence: real,
    riskLevel: real,
    expectedReturn: real)

  // ---------------------------------------------------------------- Swing trading

  const LookbackPeriod: nat := 14
  const SupportResistanceWindow: nat := 5

  /** `low_price.rolling(5).min()` at the last row: the lowest low of the last five days. */
  function SwingSupport(s: Series): (support: real)
    requires |s| >= SupportResistanceWindow
    ensures forall i :: |s| - SupportResistanceWindow <= i < |s| ==> support <= s[i].low
    ensures exists i :: |s| - SupportResistanceWindow <= i < |s| && support == s[i].low
  {
    var window := Tail(Lows(s), SupportResistanceWindow);
    assert forall j :: 0 <= j < |window| ==> window[j] == s[|s| - SupportResistanceWindow + j].low;
    Min(window)
  }

  /** `high_price.rolling(5).max()` at the last row: the highest high of the last five days. */
  function SwingResistance(s: Series): (resistance: real)
    requires |s| >= SupportResistanceWindow
    ensures forall i :: |s| - SupportResistanceWindow <= i < |s| ==> s[i].high <= resistance
    ensures exists i :: |s| - SupportResistanceWindow <= i < |s| && resistance == s[i].high
  {
    var window := Tail(Highs(s), SupportResistanceWindow);
    assert forall j :: 0 <= j < |window| ==> window[j] == s[|s| - SupportResistanceWindow + j].high;
    Max(window)
  }

  /** Half the summed standard deviations of close and volume over the whole series, capped at 1. */
  function SwingConfidence(sqrt: SquareRoot, s: Series): (c: real)
    requires |s| >= 2
    ensures 0.0 <= c <= 1.0
  {
    Cap((StdDev(sqrt, Closes(s)) + StdDev(sqrt, Volumes(s))) / 2.0)
  }

  /** Ten times the standard deviation of all daily returns, capped at 1. */
  function SwingRisk(sqrt: SquareRoot, s: Series): (r: real)
    requires |s| >= 3 && PositiveCloses(s)
    ensures 0.0 <= r <= 1.0
  {
    Cap(StdDev(sqrt, Returns(s)) * 10.0)
  }

  /** 100 times the mean of the last 14 daily returns (fewer on a short series). */
  function SwingExpectedReturn(s: Series): (r: real)
    requires |s| >= 2 && PositiveCloses(s)
    ensures Min(Tail(Returns(s), LookbackPeriod)) * 100.0 <= r <= Max(Tail(Returns(s), LookbackPeriod)) * 100.0
  {
    MeanBounds(Tail(Returns(s), LookbackPeriod));
    Mean(Tail(Returns(s), LookbackPeriod)) * 100.0
  }

  function SwingRecommend(sqrt: SquareRoot, s: Series): (r: Recommendation)
    requires |s| >= SupportResistanceWindow && PositiveCloses(s)
    ensures r.agent == "Swing Trading Agent"
    ensures r.action == Buy <==> Last(s).close < SwingSupport(s)
    ensures r.action == Sell <==> SwingSupport(s) <= Last(s).close && Last(s).close > SwingResistance(s)
    ensures r.action == Buy ==> r.expectedReturn == SwingExpectedReturn(s)
    ensures r.action == Sell ==> r.expectedReturn == -SwingExpectedReturn(s)
    ensures r.action != Hold ==> r.confidence == SwingConfidence(sqrt, s) && r.riskLevel == SwingRisk(sqrt, s)
    ensures r.action == Hold ==> r.confidence == 0.5 && r.riskLevel == 0.5 && r.expectedReturn == 0.0
    ensures 0.0 <= r.confidence <= 1.0 && 0.0 <= r.riskLevel <= 1.0
  {
    var price := Last(s).close;
    var name := "Swing Trading Agent";
    if price < SwingSupport(s) then
      Recommendation(name, Buy, SwingConfidence(sqrt, s), SwingRisk(sqrt, s), SwingExpectedReturn(s))
    else if price > SwingResistance(s) then
      Recommendation(name, Sell, SwingConfidence(sqrt, s), SwingRisk(sqrt, s), -SwingExpectedReturn(s))
    else
      Recommendation(name, Hold, 0.5, 0.5, 0.0)
  }

  /** A bar whose close lies within its own low/high range. */
  predicate WellFormedBar(o: Observation)
  {
    o.low <= o.close <= o.high
  }

  /** The support/resistance window includes today, so a well-formed last bar can never
      close below the support or above the resistance: the swing agent then always holds. */
  lemma SwingHoldsOnWellFormedBar(sqrt: SquareRoot, s: Series)
    requires |s| >= SupportResistanceWindow && PositiveCloses(s)
    requires WellFormedBar(Last(s))
    ensures SwingRecommend(sqrt, s) == Recommendation("Swing Trading Agent", Hold, 0.5, 0.5, 0.0)
  {
    assert SwingSupport(s) <= Last(s).low;
    assert Last(s).high <= SwingResistance(s);
  }

  // ------------------------------------------------------------- Momentum trading

  const ShortWindow: nat := 10
  const LongWindow: nat := 30

  /** `(short_ma - long_ma) / long_ma` at the last row: positive exactly when the short
      average is above the long one, negative exactly when it is below. */
  function Momentum(s: Series): (m: real)
    requires |s| >= LongWindow && PositiveCloses(s)
    ensures m > 0.0 <==> MovingAverage(s, ShortWindow) > MovingAverage(s, LongWindow)
    ensures m < 0.0 <==> MovingAverage(s, ShortWindow) < MovingAverage(s, LongWindow)
  {
    var short, long := MovingAverage(s, ShortWindow), MovingAverage(s, LongWindow);
    RelativeSign(short, long);
    RelativeDiff(short, long)
  }

  function MomentumConfidence(s: Series): (c: real)
    requires |s| >= LongWindow && PositiveCloses(s)
    ensures 0.0 <= c <= 1.0
  {
    Cap(Abs(Momentum(s)))
  }

  /** Ten times the standard deviation of the last 10 daily returns, capped at 1. */
  function MomentumRisk(sqrt: SquareRoot, s: Series): (r: real)
    requires |s| >= ShortWindow + 1 && PositiveCloses(s)
    ensures 0.0 <= r <= 1.0
  {
    Cap(StdDev(sqrt, Tail(Returns(s), ShortWindow)) * 10.0)
  }

  /** The momentum in percent: a gain exactly when the short average is above the long one. */
  function MomentumExpectedReturn(s: Series): (r: real)
    requires |s| >= LongWindow && PositiveCloses(s)
    ensures r > 0.0 <==> MovingAverage(s, ShortWindow) > MovingAverage(s, LongWindow)
    ensures r < 0.0 <==> MovingAverage(s, ShortWindow) < MovingAverage(s, LongWindow)
  {
    Momentum(s) * 100.0
  }

  function MomentumRecommend(sqrt: SquareRoot, s: Series): (r: Recommendation)
    requires |s| >= LongWindow && PositiveCloses(s)
    ensures r.agent == "Momentum Trading Agent"
    ensures r.action != Hold
    ensures r.action == Buy <==> MovingAverage(s, ShortWindow) > MovingAverage(s, LongWindow)
    ensures r.expectedReturn == MomentumExpectedReturn(s) && r.riskLevel == MomentumRisk(sqrt, s)
    ensures r.confidence == MomentumConfidence(s)
    ensures 0.0 <= r.confidence <= 1.0 && 0.0 <= r.riskLevel <= 1.0
  {
    var short, long := MovingAverage(s, ShortWindow), MovingAverage(s, LongWindow);
    var action := if short > long then Buy else Sell;
    Recommendation("Momentum Trading Agent", action, MomentumConfidence(s), MomentumRisk(sqrt, s), MomentumExpectedReturn(s))
  }

  /** The momentum agent is binary and buys exactly when its expected return is positive
      (the long average being positive). */
  lemma MomentumBuysIffGain(sqrt: SquareRoot, s: Series)
    requires |s| >= LongWindow && PositiveCloses(s)
    ensures MomentumRecommend(sqrt, s).action != Hold
    ensures MomentumRecommend(sqrt, s).action == Buy <==> MomentumRecommend(sqrt, s).expectedReturn > 0.0
  {
    RelativeGap(MovingAverage(s, ShortWindow), MovingAverage(s, LongWindow));
  }

  /** Its confidence is the size of its expected return (as a fraction), capped at 1. */
  lemma MomentumConfidenceIsGainSize(sqrt: SquareRoot, s: Series)
    requires |s| >= LongWindow && PositiveCloses(s)
    ensures MomentumRecommend(sqrt, s).confidence == Cap(Abs(MomentumRecommend(sqrt, s).expectedReturn) / 100.0)
  {
    RelativeGap(MovingAverage(s, ShortWindow), MovingAverage(s, LongWindow));
  }

  lemma RelativeGap(short: real, long: real)
    requires long > 0.0
    ensures RelativeDiff(short, long) * 100.0 > 0.0 <==> short > long
    ensures Cap(Abs(RelativeDiff(short, long) * 100.0) / 100.0) == Cap(Abs(RelativeDiff(short, long)))
  {
    DivSign(short - long, long);
    var m := RelativeDiff(short, long);
    assert Abs(m * 100.0) / 100.0 == Abs(m);
  }

  /** On closes that rise every day of the last 30, the ten-day average is above the
      thirty-day one, so the momentum agent buys. */
  lemma MomentumBuysOnRisingCloses(sqrt: SquareRoot, s: Series)
    requires |s| >= LongWindow && PositiveCloses(s)
    requires forall i :: |s| - LongWindow <= i < |s| - 1 ==> s[i].close < s[i + 1].close
    ensures MomentumRecommend(sqrt, s).action == Buy
  {
    ShortAverageAboveLong(s);
  }

  /** Split the thirty-day window at the close just before the last ten: the twenty
      earlier closes are at most that close and the ten later ones above it. */
  lemma ShortAverageAboveLong(s: Series)
    requires |s| >= LongWindow
    requires forall i :: |s| - LongWindow <= i < |s| - 1 ==> s[i].close < s[i + 1].close
    ensures MovingAverage(s, ShortWindow) > MovingAverage(s, LongWindow)
  {
    var long := Tail(Closes(s), LongWindow);
    var early, late := long[..LongWindow - ShortWindow], long[LongWindow - ShortWindow..];
    WindowParts(s, early, late);
    RisingSplit(s, early, late);
    MeanBelowLargerPart(early, late, s[|s| - ShortWindow - 1].close);
  }

  /** The thirty-day window is its first twenty closes followed by the ten-day window. */
  lemma WindowParts(s: Series, early: seq<real>, late: seq<real>)
    requires |s| >= LongWindow
    requires early == Tail(Closes(s), LongWindow)[..LongWindow - ShortWindow]
    requires late == Tail(Closes(s), LongWindow)[LongWindow - ShortWindow..]
    ensures late == Tail(Closes(s), ShortWindow)
    ensures early + late == Tail(Closes(s), LongWindow)
    ensures |early| == LongWindow - ShortWindow && |late| == ShortWindow
    ensures forall j :: 0 <= j < |early| ==> early[j] == s[|s| - LongWindow + j].close
    ensures forall j :: 0 <= j < |late| ==> late[j] == s[|s| - ShortWindow + j].close
  {
  }

  /** On rising closes, the twenty closes before the last ten are at most the close just
      before them, and the last ten exceed it. */
  lemma RisingSplit(s: Series, early: seq<real>, late: seq<real>)
    requires |s| >= LongWindow
    requires forall i :: |s| - LongWindow <= i < |s| - 1 ==> s[i].close < s[i + 1].close
    requires |early| == LongWindow - ShortWindow && |late| == ShortWindow
    requires forall j :: 0 <= j < |early| ==> early[j] == s[|s| - LongWindow + j].close
    requires forall j :: 0 <= j < |late| ==> late[j] == s[|s| - ShortWindow + j].close
    ensures forall j :: 0 <= j < |early| ==> early[j] <= s[|s| - ShortWindow - 1].close
    ensures forall j :: 0 <= j < |late| ==> late[j] > s[|s| - ShortWindow - 1].close
  {
    var n := |s|;
    forall j | 0 <= j < |early| ensures early[j] <= s[n - ShortWindow - 1].close {
      if n - LongWindow + j < n - ShortWindow - 1 {
        RisingBetween(s, n - LongWindow, n - LongWindow + j, n - ShortWindow - 1);
      }
    }
    forall j | 0 <= j < |late| ensures late[j] > s[n - ShortWindow - 1].close {
      RisingBetween(s, n - LongWindow, n - ShortWindow - 1, n - ShortWindow + j);
    }
  }

  lemma {:induction false} RisingBetween(s: Series, lo: int, i: int, j: int)
    requires 0 <= lo <= i < j < |s|
    requires forall k :: lo <= k < |s| - 1 ==> s[k].close < s[k + 1].close
    ensures s[i].close < s[j].close
    decreases j - i
  {
    if i + 1 < j {
      RisingBetween(s, lo, i, j - 1);
    }
  }

  // ---------------------------------------------------------------- Value investing

  const ValuationWindow: nat := 90

  /** `close / close.rolling(90).mean()` at the last row: positive, and below (above) 1
      exactly when the close is below (above) the average. */
  function PriceToAverage(s: Series): (p: real)
    requires |s| >= ValuationWindow && PositiveCloses(s)
    ensures p > 0.0
    ensures p < 1.0 <==> Last(s).close < MovingAverage(s, ValuationWindow)
    ensures p > 1.0 <==> Last(s).close > MovingAverage(s, ValuationWindow)
  {
    var price, ma := Last(s).close, MovingAverage(s, ValuationWindow);
    RatioAgainstOne(price, ma);
    Ratio(price, ma)
  }

  function ValueConfidence(s: Series): (c: real)
    requires |s| >= ValuationWindow && PositiveCloses(s)
    ensures 0.0 <= c <= 1.0
  {
    Cap(Abs(1.0 - PriceToAverage(s)))
  }

  function ValueRisk(sqrt: SquareRoot, s: Series): (r: real)
    requires |s| >= ValuationWindow && PositiveCloses(s)
    ensures 0.0 <= r <= 1.0
  {
    Cap((StdDev(sqrt, Returns(s)) + Abs(1.0 - PriceToAverage(s))) / 2.0)
  }

  /** Percentage move from today's close back to the 90-day average: a gain exactly when
      the close is below the average, a loss exactly when it is above. */
  function ValueExpectedReturn(s: Series): (r: real)
    requires |s| >= ValuationWindow && PositiveCloses(s)
    ensures r > 0.0 <==> Last(s).close < MovingAverage(s, ValuationWindow)
    ensures r < 0.0 <==> Last(s).close > MovingAverage(s, ValuationWindow)
  {
    var price, ma := Last(s).close, MovingAverage(s, ValuationWindow);
    RelativeSign(ma, price);
    RelativeDiff(ma, price) * 100.0
  }

  /** Buys more than 5% below the 90-day average, sells more than 5% above it and holds in
      between; the expected return points back at the average, and a hold is never more
      than 5% confident. */
  function ValueRecommend(sqrt: SquareRoot, s: Series): (r: Recommendation)
    requires |s| >= ValuationWindow && PositiveCloses(s)
    ensures r.agent == "Value Investing Agent"
    ensures r.action == Buy <==> Last(s).close < MovingAverage(s, ValuationWindow) * 0.95
    ensures r.action == Sell <==> Last(s).close > MovingAverage(s, ValuationWindow) * 1.05
    ensures r.action == Buy ==> r.expectedReturn > 0.0
    ensures r.action == Sell ==> r.expectedReturn < 0.0
    ensures r.action == Hold ==> r.confidence <= 0.05
    ensures r.confidence == ValueConfidence(s) && r.riskLevel == ValueRisk(sqrt, s)
    ensures r.expectedReturn == ValueExpectedReturn(s)
    ensures 0.0 <= r.confidence <= 1.0 && 0.0 <= r.riskLevel <= 1.0
  {
    var ma, price := MovingAverage(s, ValuationWindow), Last(s).close;
    var action :=
      if price < ma * 0.95 then Buy
      else if price > ma * 1.05 then Sell
      else Hold;
    ValueFacts(price, ma);
    Recommendation("Value Investing Agent", action, ValueConfidence(s), ValueRisk(sqrt, s), ValueExpectedReturn(s))
  }

  lemma ValueFacts(price: real, ma: real)
    requires price > 0.0 && ma > 0.0
    ensures price < ma * 0.95 ==> RelativeDiff(ma, price) * 100.0 > 0.0
    ensures price > ma * 1.05 ==> RelativeDiff(ma, price) * 100.0 < 0.0
    ensures ma * 0.95 <= price <= ma * 1.05 ==> Abs(1.0 - Ratio(price, ma)) <= 0.05
  {
    DivSign(ma - price, price);
    if ma * 0.95 <= price <= ma * 1.05 {
      DivAtLeast(price, ma, 0.95);
      DivAtMost(price, ma, 1.05);
    }
  }

  // ---------------------------------------------------------- Quantitative trading

  const FeatureWindow: nat := 20

  /** Standard deviation of the last 20 daily returns. */
  function QuantVolatility(sqrt: SquareRoot, s: Series): (v: real)
    requires |s| >= FeatureWindow + 1 && PositiveCloses(s)
    ensures v >= 0.0
  {
    StdDev(sqrt, Tail(Returns(s), FeatureWindow))
  }

  /** Mean of the last 20 daily returns, between the smallest and the largest of them. */
  function QuantMomentum(s: Series): (m: real)
    requires |s| >= FeatureWindow + 1 && PositiveCloses(s)
    ensures Min(Tail(Returns(s), FeatureWindow)) <= m <= Max(Tail(Returns(s), FeatureWindow))
  {
    MeanBounds(Tail(Returns(s), FeatureWindow));
    Mean(Tail(Returns(s), FeatureWindow))
  }

  /** Trades only in a calm market (volatility below 0.02), in the direction of the mean
      return; so every trade carries a risk below 0.2. The confidence `min(1, 1 - vol)`
      is nonnegative exactly when the volatility is at most 1. */
  function QuantRecommend(sqrt: SquareRoot, s: Series): (r: Recommendation)
    requires |s| >= FeatureWindow + 1 && PositiveCloses(s)
    ensures r.agent == "Quantitative Trading Agent"
    ensures r.action == Buy <==> QuantMomentum(s) > 0.0 && QuantVolatility(sqrt, s) < 0.02
    ensures r.action == Sell <==> QuantMomentum(s) < 0.0 && QuantVolatility(sqrt, s) < 0.02
    ensures r.action != Hold ==> r.riskLevel < 0.2
    ensures r.expectedReturn == 100.0 * QuantMomentum(s)
    ensures QuantVolatility(sqrt, s) < 0.02 ==>
              (r.action == Buy <==> r.expectedReturn > 0.0) &&
              (r.action == Sell <==> r.expectedReturn < 0.0) &&
              (r.expectedReturn == 0.0 ==> r.action == Hold)
    ensures r.confidence == Cap(1.0 - QuantVolatility(sqrt, s))
    ensures r.riskLevel == Cap(QuantVolatility(sqrt, s) * 10.0)
    ensures r.confidence <= 1.0 && (r.confidence >= 0.0 <==> QuantVolatility(sqrt, s) <= 1.0)
    ensures 0.0 <= r.riskLevel <= 1.0
  {
    var volatility, momentum := QuantVolatility(sqrt, s), QuantMomentum(s);
    var action :=
      if momentum > 0.0 && volatility < 0.02 then Buy
      else if momentum < 0.0 && volatility < 0.02 then Sell
      else Hold;
    Recommendation("Quantitative Trading Agent", action,
      Cap(1.0 - volatility), Cap(volatility * 10.0), momentum * 100.0)
  }

  // ------------------------------------------------------------------ The ensemble

  datatype Agent = Swing | MomentumTrader | ValueInvestor | Quant {

    /** Shortest series on which every statistic the agent reads is defined; no agent
        needs more rows than the value investor's window. */
    function MinLength(): (m: nat)
      ensures 0 < m <= ValuationWindow
    {
      match this
      case Swing => SupportResistanceWindow
      case MomentumTrader => LongWindow
      case ValueInvestor => ValuationWindow
      case Quant => FeatureWindow + 1
    }

    /** `generate_recommendation`. Every agent caps confidence and risk at 1, and its risk
        is never negative. */
    function Recommend(sqrt: SquareRoot, s: Series): (r: Recommendation)
      requires |s| >= MinLength() && PositiveCloses(s)
      ensures r.confidence <= 1.0 && 0.0 <= r.riskLevel <= 1.0
      ensures this != Quant ==> 0.0 <= r.confidence
    {
      match this
      case Swing => SwingRecommend(sqrt, s)
      case MomentumTrader => MomentumRecommend(sqrt, s)
      case ValueInvestor => ValueRecommend(sqrt, s)
      case Quant => QuantRecommend(sqrt, s)
    }
  }
}
