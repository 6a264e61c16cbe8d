/** The market-analysis configuration and the state and trend-strength enumerations. */
module MarketConfig {
  import opened Common

  /** `MarketState`: ten recognisable market states. */
  datatype MarketState =
    | TrendingBull | TrendingBear | Ranging | Volatile | Breakout
    | Reversal | Sideways | LowVolatility | Consolidation | Uncertain
  {
    /** The enumeration's value, the state's display name. */
    function Value(): string
    {
      match this
      case TrendingBull => "上升趋势"
      case TrendingBear => "下降趋势"
      case Ranging => "区间震荡"
      case Volatile => "高波动"
      case Breakout => "突破"
      case Reversal => "反转"
      case Sideways => "横盘整理"
      case LowVolatility => "低波动"
      case Consolidation => "盘整"
      case Uncertain => "不确定"
    }
  }

  /** The members in declaration order. */
  const AllStates: seq<MarketState> := [TrendingBull, TrendingBear, Ranging, Volatile, Breakout,
                                        Reversal, Sideways, LowVolatility, Consolidation, Uncertain]

  /** Every state is listed once, so there are ten of them. */
  lemma AllStatesComplete(s: MarketState)
    ensures s in AllStates && |AllStates| == 10 && Unique(AllStates)
  {
  }

  /** Distinct states have distinct values, so a value names one state. */
  lemma StateValuesDistinct(s: MarketState, t: MarketState)
    requires s != t
    ensures s.Value() != t.Value()
  {
  }

  /** `TrendStrength`: four tiers. */
  datatype TrendStrength = Strong | Moderate | Weak | NoTrend
  {
    function Value(): string
    {
      match this
      case Strong => "强势"
      case Moderate => "温和"
      case Weak => "弱势"
      case NoTrend => "无趋势"
    }
  }

  const AllStrengths: seq<TrendStrength> := [Strong, Moderate, Weak, NoTrend]

  lemma AllStrengthsComplete(s: TrendStrength)
    ensures s in AllStrengths && |AllStrengths| == 4 && Unique(AllStrengths)
  {
  }

  /** `MarketAnalysisConfig`; the logging switches are left out. */
  datatype MarketAnalysisConfig = MarketAnalysisConfig(
    defaultLookbackDays: int,
    minDataPoints: int,
    trendingThreshold: real,
    strongTrendThreshold: real,
    rangingThreshold: real,
    highVolatilityMultiplier: real,
    lowVolatilityMultiplier: real,
    rsiOverbought: real,
    rsiOversold: real,
    rsiNeutralUpper: real,
    rsiNeutralLower: real,
    bbSqueezeThreshold: real,
    shortTermMaWeight: real,
    mediumTermMaWeight: real,
    longTermMaWeight: real,
    stateChangeSmoothing: int)

  /** The dataclass defaults. */
  function DefaultConfig(): (c: MarketAnalysisConfig)
    ensures c.minDataPoints == 20 && c.trendingThreshold == 0.015
    ensures c.highVolatilityMultiplier == 1.5 && c.lowVolatilityMultiplier == 0.5
  {
    MarketAnalysisConfig(60, 20, 0.015, 0.03, 0.01, 1.5, 0.5, 70.0, 30.0, 60.0, 40.0, 0.7, 0.3, 0.4, 0.3, 3)
  }

  /** `validate`: the three guards in order; a passing config is returned as it is. */
  function Validate(c: MarketAnalysisConfig): (r: Result<MarketAnalysisConfig>)
    ensures r.Ok? <==> c.trendingThreshold > 0.0 && c.highVolatilityMultiplier > 1.0
                       && 0.0 < c.lowVolatilityMultiplier < 1.0
    ensures r.Ok? ==> r.value == c
    ensures c.trendingThreshold <= 0.0 ==> r == Err("ValueError: trending_threshold 必须大于0")
    ensures c.trendingThreshold > 0.0 && c.highVolatilityMultiplier <= 1.0 ==>
      r == Err("ValueError: high_volatility_multiplier 必须大于1")
    ensures c.trendingThreshold > 0.0 && c.highVolatilityMultiplier > 1.0 && !(0.0 < c.lowVolatilityMultiplier < 1.0) ==>
      r == Err("ValueError: low_volatility_multiplier 必须在0和1之间")
  {
    if c.trendingThreshold <= 0.0 then Err("ValueError: trending_threshold 必须大于0")
    else if c.highVolatilityMultiplier <= 1.0 then Err("ValueError: high_volatility_multiplier 必须大于1")
    else if !(0.0 < c.lowVolatilityMultiplier < 1.0) then Err("ValueError: low_volatility_multiplier 必须在0和1之间")
    else Ok(c)
  }

  /** The defaults pass validation. */
  lemma DefaultValidates()
    ensures Validate(DefaultConfig()) == Ok(DefaultConfig())
  {
  }

  /** The default RSI thresholds are ordered oversold < neutral lower < neutral upper < overbought. */
  lemma DefaultRsiOrdered()
    ensures var c := DefaultConfig();
      c.rsiOversold < c.rsiNeutralLower < c.rsiNeutralUpper < c.rsiOverbought
  {
  }

  /** The default moving-average weights add up to one. */
  lemma DefaultMaWeights()
    ensures var c := DefaultConfig();
      c.shortTermMaWeight + c.mediumTermMaWeight + c.longTermMaWeight == 1.0
  {
  }
}
