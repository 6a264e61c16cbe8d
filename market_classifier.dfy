/**
 * The market classifier: support and resistance, volume, the combined
 * market-state classification with its trading signals, and a bounded
 * history of classified states with its transitions and regime.
 */
module MarketClassifier {
  import opened Common
  import opened MarketConfig
  import TD = TrendDetector
  import VA = VolatilityAnalyzer
  import MarketUtils

  const CompareError := "TypeError: '>' not supported between these operands"

  // ---------------------------------------------------- support/resistance

  /** A key level within 2% of the price: below it is support, otherwise resistance. */
  datatype KeyLevel = NearSupport(level: real) | NearResistance(level: real)

  datatype SupportResistance = SupportResistance(
    nearSupport: bool, nearResistance: bool, keyLevels: seq<KeyLevel>, breakoutPotential: bool, signal: string)

  /** The levels to check: `key_levels`, or support and resistance of `price_ranges` when there are none. */
  function LevelCandidates(technicalData: seq<(string, Value)>): (r: Result<seq<Value>>)
    ensures Truthy(GetOr(technicalData, "key_levels", List([]))) && GetOr(technicalData, "key_levels", List([])).List? ==>
      r == Ok(GetOr(technicalData, "key_levels", List([])).items)
  {
    var given := GetOr(technicalData, "key_levels", List([]));
    if !Truthy(given) && HasKey(technicalData, "price_ranges") && Truthy(GetOr(technicalData, "price_ranges", Dict([]))) then
      match GetOr(technicalData, "price_ranges", Dict([]))
      case Dict(ranges) => Ok([GetOr(ranges, "support", Int(0)), GetOr(ranges, "resistance", Int(0))])
      case _ => Err(NoGet)
    else
      match given
      case List(items) => Ok(items)
      case Str(s) => if s == "" then Ok([]) else Err(CompareError)
      case Dict(es) => if es == [] then Ok([]) else Err(CompareError)
      case _ => Err("TypeError: object is not iterable")
  }

  /** One level against the price: an error, nothing, or a key level within 2%. */
  function LevelStep(price: Value, level: Value): Result<Option<KeyLevel>>
  {
    match AsNumber(level)
    case None => Err(CompareError)
    case Some(l) =>
      if !(l > 0.0) then Ok(None)
      else
        match AsNumber(price)
        case None => Err("TypeError: unsupported operand type(s) for -")
        case Some(p) =>
          if p == 0.0 then Err("ZeroDivisionError: float division by zero")
          else if Abs(p - l) / p < 0.02 then Ok(Some(if p > l then NearSupport(l) else NearResistance(l)))
          else Ok(None)
  }

  /** The key levels found in the first n candidates, or the first error. */
  function KeyLevelsUpTo(price: Value, levels: seq<Value>, n: nat): Result<seq<KeyLevel>>
    requires n <= |levels|
  {
    if n == 0 then Ok([])
    else
      match KeyLevelsUpTo(price, levels, n - 1)
      case Err(e) => Err(e)
      case Ok(found) =>
        match LevelStep(price, levels[n - 1])
        case Err(e) => Err(e)
        case Ok(k) => Ok(found + (if k.Some? then [k.value] else []))
  }

  predicate HasSupport(ks: seq<KeyLevel>) { exists i :: 0 <= i < |ks| && ks[i].NearSupport? }
  predicate HasResistance(ks: seq<KeyLevel>) { exists i :: 0 <= i < |ks| && ks[i].NearResistance? }

  /** The flags and signal that follow from the key levels found. */
  function Summarize(ks: seq<KeyLevel>): (r: SupportResistance)
    ensures r.keyLevels == ks && r.nearSupport == HasSupport(ks) && r.nearResistance == HasResistance(ks)
    ensures r.breakoutPotential <==> r.nearSupport || r.nearResistance
    ensures r.signal == (if r.nearSupport then "near_support" else if r.nearResistance then "near_resistance" else "neutral")
  {
    var s := HasSupport(ks);
    var t := HasResistance(ks);
    SupportResistance(s, t, ks, s || t, if s then "near_support" else if t then "near_resistance" else "neutral")
  }

  /**
   * The outcome of `_analyze_support_resistance`: the price data and the
   * candidate levels are read, then the levels scanned; the first step that
   * raises decides the error.
   */
  function SupportResistanceOf(technicalData: seq<(string, Value)>): Result<SupportResistance>
  {
    match DictArg(technicalData, "price_data")
    case Err(e) => Err(e)
    case Ok(priceData) =>
      match LevelCandidates(technicalData)
      case Err(e) => Err(e)
      case Ok(levels) =>
        match KeyLevelsUpTo(GetOr(priceData, "current", Int(0)), levels, |levels|)
        case Err(e) => Err(e)
        case Ok(ks) => Ok(Summarize(ks))
  }

  /**
   * `_analyze_support_resistance`: every candidate level is compared with
   * the price; a positive one within 2% marks near support when the price is
   * above it and near resistance otherwise.
   */
  method AnalyzeSupportResistance(technicalData: seq<(string, Value)>) returns (r: Result<SupportResistance>)
    ensures r == SupportResistanceOf(technicalData)
    ensures DictArg(technicalData, "price_data").Err? || LevelCandidates(technicalData).Err? ==> r.Err?
    ensures DictArg(technicalData, "price_data").Ok? && LevelCandidates(technicalData).Ok? ==>
      var levels := LevelCandidates(technicalData).value;
      var price := GetOr(DictArg(technicalData, "price_data").value, "current", Int(0));
      match KeyLevelsUpTo(price, levels, |levels|)
      case Err(e) => r == Err(e)
      case Ok(ks) => r == Ok(Summarize(ks))
  {
    var priceData := DictArg(technicalData, "price_data");
    if priceData.Err? {
      return Err(priceData.msg);
    }
    var price := GetOr(priceData.value, "current", Int(0));
    var candidates := LevelCandidates(technicalData);
    if candidates.Err? {
      return Err(candidates.msg);
    }
    var levels := candidates.value;
    var found: seq<KeyLevel> := [];
    var i := 0;
    while i < |levels|
      invariant 0 <= i <= |levels|
      invariant KeyLevelsUpTo(price, levels, i) == Ok(found)
    {
      var step := LevelStep(price, levels[i]);
      if step.Err? {
        assert KeyLevelsUpTo(price, levels, i + 1) == Err(step.msg);
        KeyLevelsFailStay(price, levels, i + 1, |levels|);
        return Err(step.msg);
      }
      found := found + (if step.value.Some? then [step.value.value] else []);
      assert KeyLevelsUpTo(price, levels, i + 1) == Ok(found);
      i := i + 1;
    }
    r := Ok(Summarize(found));
  }

  /** Once a candidate raises, the whole scan raises with that error. */
  lemma {:induction false} KeyLevelsFailStay(price: Value, levels: seq<Value>, i: nat, n: nat)
    requires 0 < i <= n <= |levels|
    requires KeyLevelsUpTo(price, levels, i).Err?
    ensures KeyLevelsUpTo(price, levels, n) == KeyLevelsUpTo(price, levels, i)
    decreases n - i
  {
    if n > i {
      KeyLevelsFailStay(price, levels, i, n - 1);
    }
  }

  /** A found key level is positive and within 2% of a positive or negative, non-zero price. */
  lemma {:induction false} KeyLevelsAreNear(price: Value, levels: seq<Value>, n: nat, j: nat)
    requires n <= |levels| && KeyLevelsUpTo(price, levels, n).Ok? && j < |KeyLevelsUpTo(price, levels, n).value|
    ensures var k := KeyLevelsUpTo(price, levels, n).value[j];
      var p := AsNumber(price);
      k.level > 0.0 && p.Some? && p.value != 0.0 && Abs(p.value - k.level) / p.value < 0.02
      && (k.NearSupport? <==> p.value > k.level)
    decreases n
  {
    var prev := KeyLevelsUpTo(price, levels, n - 1);
    if j >= |prev.value| {
      assert LevelStep(price, levels[n - 1]).Ok? && LevelStep(price, levels[n - 1]).value.Some?;
    } else {
      KeyLevelsAreNear(price, levels, n - 1, j);
      assert KeyLevelsUpTo(price, levels, n).value[j] == prev.value[j];
    }
  }

  const NoGet := "AttributeError: object has no attribute 'get'"

  /** A dictionary-valued entry (an empty one when missing); anything else has no `get`. */
  function DictArg(technicalData: seq<(string, Value)>, k: string): (r: Result<seq<(string, Value)>>)
    ensures !HasKey(technicalData, k) ==> r == Ok([])
    ensures r.Ok? <==> GetOr(technicalData, k, Dict([])).Dict?
  {
    match GetOr(technicalData, k, Dict([]))
    case Dict(es) => Ok(es)
    case _ => Err(NoGet)
  }

  // ----------------------------------------------------------------- volume

  datatype VolumeAnalysis = VolumeAnalysis(volumeTrend: string, volumeSpike: bool, volumeSignal: string, volumeRatio: real)

  const DefaultVolume := VolumeAnalysis("neutral", false, "normal", 1.0)

  /** Volume-ratio tiers: above 1.5 a spike, above 1.2 above average, below 0.8 low, else normal. */
  function VolumeOf(ratio: real): (v: VolumeAnalysis)
    ensures v.volumeRatio == ratio
    ensures v.volumeSpike <==> ratio > 1.5
    ensures v.volumeSignal == "high_volume" <==> ratio > 1.5
    ensures v.volumeSignal == "above_average" <==> 1.2 < ratio <= 1.5
    ensures v.volumeSignal == "low_volume" <==> ratio < 0.8
    ensures v.volumeSignal == "normal" <==> 0.8 <= ratio <= 1.2
  {
    if ratio > 1.5 then VolumeAnalysis("increasing", true, "high_volume", ratio)
    else if ratio > 1.2 then VolumeAnalysis("increasing", false, "above_average", ratio)
    else if ratio < 0.8 then VolumeAnalysis("decreasing", false, "low_volume", ratio)
    else VolumeAnalysis("neutral", false, "normal", ratio)
  }

  /** Both readings are present and numeric, the average is positive and their ratio exceeds t. */
  predicate RatioAbove(indicators: seq<(string, Value)>, t: real)
  {
    var v := Present(indicators, "Volume");
    var m := Present(indicators, "Volume_MA_20");
    v.Some? && m.Some? && AsNumber(v.value).Some? && AsNumber(m.value).Some?
    && AsNumber(m.value).value > 0.0 && AsNumber(v.value).value / AsNumber(m.value).value > t
  }

  /** `_analyze_volume` on the latest indicators. */
  function AnalyzeVolume(technicalData: seq<(string, Value)>): (r: Result<VolumeAnalysis>)
    ensures DictArg(technicalData, "latest_indicators").Err? ==> r.Err?
    ensures DictArg(technicalData, "latest_indicators").Ok? ==> r == VolumeOfReadings(DictArg(technicalData, "latest_indicators").value)
  {
    match DictArg(technicalData, "latest_indicators")
    case Err(e) => Err(e)
    case Ok(indicators) => VolumeOfReadings(indicators)
  }

  /** With a volume and a positive 20-day average, the tier of their ratio. */
  function VolumeOfReadings(indicators: seq<(string, Value)>): (r: Result<VolumeAnalysis>)
    ensures (Present(indicators, "Volume").None? || Present(indicators, "Volume_MA_20").None?) ==> r == Ok(DefaultVolume)
    ensures r.Ok? && r.value.volumeSpike ==> RatioAbove(indicators, 1.5)
  {
    match (Present(indicators, "Volume"), Present(indicators, "Volume_MA_20"))
    case (Some(volume), Some(average)) =>
      (match AsNumber(average)
       case None => Err(CompareError)
       case Some(m) =>
         if !(m > 0.0) then Ok(DefaultVolume)
         else
           match AsNumber(volume)
           case None => Err("TypeError: unsupported operand type(s) for /")
           case Some(v) => Ok(VolumeOf(v / m)))
    case _ => Ok(DefaultVolume)
  }

  // ---------------------------------------------------------- classification

  datatype Classification = Classification(
    primaryState: MarketState, trendState: Option<MarketState>, volatilityState: string, patternState: string,
    confidence: real, conditions: seq<string>, recommendation: string, summary: string)

  /** What `_classify_market` reads from the component results. */
  datatype Inputs = Inputs(
    trendDirection: string, trendStrength: real, priceChange: real, volatilityLevel: string,
    volatilityScore: real, nearSupport: bool, nearResistance: bool, breakoutPotential: bool, volumeSignal: string)

  predicate Directional(i: Inputs)
  {
    (i.trendDirection == "bullish" || i.trendDirection == "bearish") && i.trendStrength > 0.6
  }

  predicate Churning(i: Inputs) { !Directional(i) && i.trendDirection == "neutral" && i.volatilityScore > 0.7 }

  predicate Quiet(i: Inputs) { !Directional(i) && !Churning(i) && i.trendDirection == "neutral" && i.volatilityScore < 0.3 }

  predicate AtKeyLevel(i: Inputs) { !Directional(i) && !Churning(i) && !Quiet(i) && (i.nearSupport || i.nearResistance) }

  predicate Otherwise(i: Inputs) { !Directional(i) && !Churning(i) && !Quiet(i) && !AtKeyLevel(i) }

  /** The classification before the volume adjustment and the summary. */
  function BaseClassification(i: Inputs, c: MarketAnalysisConfig): (r: Classification)
    ensures Directional(i) && i.trendDirection == "bullish" ==> r.primaryState == TrendingBull
    ensures Directional(i) && i.trendDirection == "bearish" ==> r.primaryState == TrendingBear
    ensures Directional(i) ==> r.confidence <= (if i.volatilityScore > 0.6 then 0.9 else 0.95)
    ensures Churning(i) ==> r.primaryState == Volatile && r.trendState == Some(Sideways) && r.confidence == i.volatilityScore * 0.8
    ensures Quiet(i) ==> (r.primaryState == LowVolatility && r.trendState == Some(Sideways)
      && r.confidence == (if i.breakoutPotential then 0.6 else 0.5))
    ensures AtKeyLevel(i) ==> r.primaryState == (if i.volatilityScore < 0.4 then Consolidation else Breakout)
    ensures Otherwise(i) ==> r.primaryState == (if Abs(i.priceChange) < c.rangingThreshold then Ranging else Uncertain)
  {
    var v := i.volatilityScore;
    if Directional(i) then
      var bull := i.trendDirection == "bullish";
      if v > 0.6 then
        Classification(if bull then TrendingBull else TrendingBear, None, "high_volatility", "trending_with_high_vol",
          Min(i.trendStrength * 0.8 + v * 0.2, 0.9),
          if bull then ["强势上涨趋势", "高波动率"] else ["强势下跌趋势", "高波动率"],
          if bull then "顺势而为，注意波动风险" else "谨慎做空，设置止损", "")
      else
        Classification(if bull then TrendingBull else TrendingBear, None, "normal_volatility", "steady_trend",
          Min(i.trendStrength * 0.9 + v * 0.1, 0.95),
          if bull then ["稳定上涨趋势"] else ["稳定下跌趋势"],
          if bull then "逢低买入" else "反弹做空", "")
    else if Churning(i) then
      Classification(Volatile, Some(Sideways), "high_volatility", "choppy_market", v * 0.8,
        ["无明确方向", "高波动震荡"], "区间交易，高抛低吸", "")
    else if Quiet(i) then
      if i.breakoutPotential then
        Classification(LowVolatility, Some(Sideways), "low_volatility", "consolidation_before_breakout", 0.6,
          ["低波动盘整", "接近关键价位"], "等待突破方向", "")
      else
        Classification(LowVolatility, Some(Sideways), "low_volatility", "sideways_consolidation", 0.5,
          ["横盘整理", "低波动率"], "观望或小仓位区间交易", "")
    else if AtKeyLevel(i) then
      if v < 0.4 then
        Classification(Consolidation, None, i.volatilityLevel, "consolidation_at_key_level", 0.7,
          if i.nearSupport then ["支撑位附近盘整"] else ["阻力位附近盘整"],
          if i.nearSupport then "观察支撑有效性，准备做多" else "观察阻力有效性，准备做空", "")
      else
        Classification(Breakout, None, i.volatilityLevel, "breakout_attempt", 0.6,
          ["关键价位测试", "波动率上升"], "等待突破确认", "")
    else if Abs(i.priceChange) < c.rangingThreshold then
      Classification(Ranging, None, i.volatilityLevel, "range_bound", 0.7 - v * 0.2, ["区间震荡"], "区间交易策略", "")
    else
      Classification(Uncertain, None, i.volatilityLevel, "none", 0.4, ["市场信号矛盾"], "观望，等待更明确信号", "")
  }

  /** The volume step: high volume raises trending and breakout confidence, capped at 0.95. */
  function VolumeAdjusted(b: Classification, volumeSignal: string): (r: Classification)
    ensures r.primaryState == b.primaryState && r.trendState == b.trendState
    ensures volumeSignal == "high_volume" && b.primaryState in {TrendingBull, TrendingBear} ==>
      r.confidence == Min(b.confidence * 1.1, 0.95)
    ensures volumeSignal == "high_volume" && b.primaryState == Breakout ==> r.confidence == Min(b.confidence * 1.2, 0.95)
    ensures !(volumeSignal == "high_volume" && b.primaryState in {TrendingBull, TrendingBear, Breakout}) ==> r == b
    ensures r.confidence <= Max(b.confidence, 0.95)
  {
    if volumeSignal == "high_volume" && (b.primaryState == TrendingBull || b.primaryState == TrendingBear) then
      b.(confidence := Min(b.confidence * 1.1, 0.95), conditions := b.conditions + ["成交量放大确认趋势"])
    else if volumeSignal == "high_volume" && b.primaryState == Breakout then
      b.(confidence := Min(b.confidence * 1.2, 0.95), conditions := b.conditions + ["放量突破"], recommendation := "突破确认，跟随趋势")
    else b
  }

  function ConfidenceDescription(c: real): (s: string)
    ensures s == "极高" <==> c > 0.8
  {
    if c > 0.8 then "极高" else if c > 0.7 then "高" else if c > 0.6 then "中等" else "较低"
  }

  /** `_generate_state_summary`. */
  function StateSummary(primary: MarketState, trendState: Option<MarketState>, conditions: seq<string>, confidence: real): (s: string)
    ensures StartsWith(s, "市场状态: " + primary.Value())
  {
    var trendText := if trendState.Some? then "，趋势状态: " + trendState.value.Value() else "";
    var s := "市场状态: " + primary.Value() + trendText + "，置信度: " + ConfidenceDescription(confidence)
      + "。主要特征: " + Join(conditions, "，");
    assert s[..|"市场状态: " + primary.Value()|] == "市场状态: " + primary.Value();
    s
  }

  /** `_classify_market`. */
  function ClassifyMarket(i: Inputs, c: MarketAnalysisConfig): (r: Classification)
    ensures r.primaryState == BaseClassification(i, c).primaryState
    ensures r.summary == StateSummary(r.primaryState, r.trendState, r.conditions, r.confidence)
  {
    var b := VolumeAdjusted(BaseClassification(i, c), i.volumeSignal);
    b.(summary := StateSummary(b.primaryState, b.trendState, b.conditions, b.confidence))
  }

  /** Trending confidences never exceed 0.95, even after the volume boost. */
  lemma TrendingConfidenceCapped(i: Inputs, c: MarketAnalysisConfig)
    requires Directional(i)
    ensures ClassifyMarket(i, c).confidence <= 0.95
  {
  }

  /** With readings in their ranges every classification confidence lies in [0, 0.95]. */
  lemma ConfidenceInRange(i: Inputs, c: MarketAnalysisConfig)
    requires 0.0 <= i.trendStrength <= 0.95 && 0.0 <= i.volatilityScore <= 0.9
    ensures 0.0 <= ClassifyMarket(i, c).confidence <= 0.95
  {
    var b := BaseClassification(i, c);
    assert 0.0 <= b.confidence <= 0.95 by {
      MulNonNegative(i.trendStrength, 0.8);
      MulNonNegative(i.volatilityScore, 0.2);
      MulNonNegative(i.trendStrength, 0.9);
      MulNonNegative(i.volatilityScore, 0.1);
      MulNonNegative(i.volatilityScore, 0.8);
    }
    MulNonNegative(b.confidence, 1.1);
    MulNonNegative(b.confidence, 1.2);
  }

  // ---------------------------------------------------------------- signals

  datatype TradingSignal =
    | Base(signal: string, strength: real, action: string, reason: string)
    | Extra(kind: string, detail: string, priority: string)

  /** `_generate_trading_signals`: the base signal first, then the state's advice. */
  function GenerateTradingSignals(cl: Classification, volatilityLevel: string): (r: seq<TradingSignal>)
    ensures |r| >= 1 && r[0].Base? && forall k :: 1 <= k < |r| ==> r[k].Extra?
    ensures cl.primaryState == TrendingBull && cl.confidence > 0.7 ==>
      r[0] == Base("bullish", cl.confidence, "buy", "强势上涨趋势")
    ensures cl.primaryState == TrendingBear && cl.confidence > 0.7 ==>
      r[0] == Base("bearish", cl.confidence, "sell", "强势下跌趋势")
    ensures r[0].action == "buy" ==> cl.primaryState == TrendingBull && cl.confidence > 0.7
    ensures r[0].action == "sell" ==> cl.primaryState == TrendingBear && cl.confidence > 0.7
    ensures |r| == 2 <==>
      (cl.primaryState == TrendingBull && cl.confidence > 0.7 && volatilityLevel == "high")
      || cl.primaryState in {Ranging, Breakout, Volatile}
    ensures |r| <= 2
  {
    var hold := Base("neutral", 0.0, "hold", "");
    var (base, extra) :=
      match cl.primaryState
      case TrendingBull =>
        if cl.confidence > 0.7 then
          (Base("bullish", cl.confidence, "buy", "强势上涨趋势"),
           if volatilityLevel == "high" then [Extra("risk_warning", "高波动率环境，建议轻仓或使用较小止损", "high")] else [])
        else (hold, [])
      case TrendingBear =>
        if cl.confidence > 0.7 then (Base("bearish", cl.confidence, "sell", "强势下跌趋势"), []) else (hold, [])
      case Ranging =>
        (Base("neutral", 0.0, "range_trade", "区间震荡市场"), [Extra("trading_strategy", "在支撑位买入，阻力位卖出", "medium")])
      case Breakout =>
        (Base("breakout_watch", 0.0, "wait_for_confirmation", "等待突破确认"), [Extra("breakout_watch", "等待价格确认突破关键水平", "high")])
      case Volatile =>
        (Base("volatile", 0.0, "reduce_position", "高波动市场"), [Extra("risk_management", "减少仓位规模，扩大止损", "high")])
      case _ => (hold, []);
    [base] + extra
  }

  // ----------------------------------------------------------------- regime

  /** `get_market_regime` on the most frequent state name. */
  function RegimeOf(stateName: string): string
  {
    if Contains(stateName, "趋势") then "trending_market"
    else if Contains(stateName, "震荡") || Contains(stateName, "横盘") then "ranging_market"
    else if Contains(stateName, "波动") then "volatile_market"
    else "transitional_market"
  }

  /** The regime each state counts toward. */
  function RegimeTable(st: MarketState): string
  {
    match st
    case TrendingBull | TrendingBear => "trending_market"
    case Ranging | Sideways => "ranging_market"
    case Volatile | LowVolatility => "volatile_market"
    case _ => "transitional_market"
  }

  /** The regime of a state's name: the two trends trend, ranging and sideways range, the two volatility states are volatile. */
  lemma RegimeOfState(st: MarketState)
    ensures RegimeOf(st.Value()) == RegimeTable(st)
  {
    var n := st.Value();
    match st
    case TrendingBull => ContainsAt(n, "趋势", 2);
    case TrendingBear => ContainsAt(n, "趋势", 2);
    case Ranging => LacksFirst(n, "趋势"); ContainsAt(n, "震荡", 2);
    case Sideways => LacksFirst(n, "趋势"); LacksFirst(n, "震荡"); ContainsAt(n, "横盘", 0);
    case Volatile => Plain(n); ContainsAt(n, "波动", 1);
    case LowVolatility => Plain(n); ContainsAt(n, "波动", 1);
    case _ => Plain(n); LacksFirst(n, "波动");
  }

  /** A name without the trend or range words. */
  lemma Plain(n: string)
    requires forall i :: 0 <= i < |n| ==> n[i] != '趋' && n[i] != '震' && n[i] != '横'
    ensures !Contains(n, "趋势") && !Contains(n, "震荡") && !Contains(n, "横盘")
  {
    LacksFirst(n, "趋势");
    LacksFirst(n, "震荡");
    LacksFirst(n, "横盘");
  }

  // ---------------------------------------------------------------- history

  datatype HistoryEntry = HistoryEntry(timestamp: int, state: MarketState, confidence: real, conditions: seq<string>)

  datatype Transition = Transition(fromState: string, toState: string, timestamp: int, confidenceChange: real)

  const HistoryCap: nat := 100

  function States(h: seq<HistoryEntry>): (r: seq<MarketState>)
    ensures |r| == |h| && forall i :: 0 <= i < |h| ==> r[i] == h[i].state
  {
    seq(|h|, i requires 0 <= i < |h| => h[i].state)
  }

  function StateNames(h: seq<HistoryEntry>): (r: seq<string>)
    ensures |r| == |h| && forall i :: 0 <= i < |h| ==> r[i] == h[i].state.Value()
  {
    seq(|h|, i requires 0 <= i < |h| => h[i].state.Value())
  }

  /** The transitions of a history: one per adjacent pair of entries whose states differ. */
  function TransitionsOf(h: seq<HistoryEntry>): seq<Transition>
    decreases |h|
  {
    if |h| < 2 then []
    else
      TransitionsOf(h[..|h| - 1])
      + (if h[|h| - 2].state != h[|h| - 1].state
         then [Transition(h[|h| - 2].state.Value(), h[|h| - 1].state.Value(), h[|h| - 1].timestamp,
                          h[|h| - 1].confidence - h[|h| - 2].confidence)]
         else [])
  }

  /** Extending a prefix of the history by one entry adds at most the transition into that entry. */
  lemma TransitionsPrefixStep(h: seq<HistoryEntry>, i: nat)
    requires 1 <= i < |h|
    ensures TransitionsOf(h[..i + 1])
            == TransitionsOf(h[..i])
               + (if h[i - 1].state != h[i].state
                  then [Transition(h[i - 1].state.Value(), h[i].state.Value(), h[i].timestamp,
                                   h[i].confidence - h[i - 1].confidence)]
                  else [])
  {
    var p := h[..i + 1];
    assert p[..|p| - 1] == h[..i];
    assert p[|p| - 2] == h[i - 1] && p[|p| - 1] == h[i];
  }

  /** There is one transition per state change. */
  lemma {:induction false} TransitionsCount(h: seq<HistoryEntry>)
    decreases |h|
    ensures |TransitionsOf(h)| == |ChangeIndices(States(h))|
  {
    if |h| >= 2 {
      var t := h[..|h| - 1];
      TransitionsCount(t);
      assert States(h)[..|h| - 1] == States(t);
    }
  }

  /** The k-th transition is the k-th state change, with the confidence difference across it. */
  lemma {:induction false} TransitionsAreChanges(h: seq<HistoryEntry>, k: nat)
    requires k < |ChangeIndices(States(h))|
    decreases |h|
    ensures ChangeAt(h, k)
  {
    var t := h[..|h| - 1];
    StatesSnoc(h);
    if k < |ChangeIndices(States(t))| {
      TransitionsAreChanges(t, k);
      TransitionsKeep(h, k);
    } else {
      TransitionsCount(t);
      TransitionLast(h, k);
    }
  }

  /** The k-th transition of h goes across the k-th change of its states. */
  predicate ChangeAt(h: seq<HistoryEntry>, k: nat)
  {
    var c := ChangeIndices(States(h));
    k < |c| && k < |TransitionsOf(h)|
    && TransitionsOf(h)[k] == Transition(h[c[k] - 1].state.Value(), h[c[k]].state.Value(), h[c[k]].timestamp,
                                         h[c[k]].confidence - h[c[k] - 1].confidence)
  }

  /** The states of a history's front are the front of its states. */
  lemma StatesSnoc(h: seq<HistoryEntry>)
    requires |h| > 0
    ensures States(h)[..|h| - 1] == States(h[..|h| - 1])
  {
  }

  /** A transition of a history's front is the same transition of the history. */
  lemma TransitionsKeep(h: seq<HistoryEntry>, k: nat)
    requires |h| > 0 && States(h)[..|h| - 1] == States(h[..|h| - 1])
    requires ChangeAt(h[..|h| - 1], k)
    ensures ChangeAt(h, k)
  {
    var t := h[..|h| - 1];
    var j := ChangeIndices(States(t))[k];
    assert ChangeIndices(States(h))[k] == j && 1 <= j < |t|;
    assert t[j] == h[j] && t[j - 1] == h[j - 1];
  }

  /** The last change of a history is at its last entry, and its transition is the last one. */
  lemma TransitionLast(h: seq<HistoryEntry>, k: nat)
    requires |h| > 0 && States(h)[..|h| - 1] == States(h[..|h| - 1])
    requires k < |ChangeIndices(States(h))| && k >= |ChangeIndices(States(h[..|h| - 1]))|
    requires |TransitionsOf(h[..|h| - 1])| == |ChangeIndices(States(h[..|h| - 1]))|
    ensures ChangeAt(h, k)
  {
  }

  /** The regime of a history: unknown when empty, else that of the most frequent of its last 20 states. */
  function Regime(h: seq<HistoryEntry>): string
  {
    if h == [] then "unknown" else RegimeOf(MostCommon(StateNames(TakeLast(h, 20))))
  }

  /**
   * A non-empty history has the regime of one of its last 20 states, one
   * that occurs there at least as often as any other.
   */
  lemma RegimeFollowsMode(h: seq<HistoryEntry>, j: nat)
    requires h != [] && j < |TakeLast(h, 20)|
    ensures var w := TakeLast(h, 20);
      exists i :: 0 <= i < |w| && Regime(h) == RegimeTable(w[i].state)
        && Count(StateNames(w), w[j].state.Value()) <= Count(StateNames(w), w[i].state.Value())
  {
    var w := TakeLast(h, 20);
    var names := StateNames(w);
    MostCommonIsMode(names, names[j]);
    var i :| 0 <= i < |names| && names[i] == MostCommon(names);
    RegimeOfState(w[i].state);
  }

  // --------------------------------------------------------------- results

  /** What `classify_market_state` returns; the time stamp is left out. */
  datatype StateReport =
    | Classified(marketState: MarketState, confidence: real, trendSubState: string, volatilitySubState: string,
                 patternSubState: string, trend: TD.TrendReport, volatility: VA.VolatilityReport,
                 supportResistance: SupportResistance, volume: VolumeAnalysis, signals: seq<TradingSignal>,
                 summary: string, recommendation: string, conditions: seq<string>)
    | Unclassified(error: Value)
  {
    /** The reported `market_state`: a failure reports the uncertain state. */
    function StateField(): MarketState { if Classified? then marketState else Uncertain }
    function ConfidenceField(): real { if Classified? then confidence else 0.0 }
  }

  /** What `_classify_market` reads from the trend, volatility, level and volume results. */
  function InputsOf(t: TD.TrendReport, v: VA.VolatilityReport, sr: SupportResistance, volume: VolumeAnalysis): (i: Inputs)
    ensures i.trendDirection == t.TrendName() && i.trendStrength == t.ConfidenceField()
    ensures i.volatilityLevel == v.LevelField() && i.volatilityScore == v.ScoreField()
  {
    Inputs(t.TrendName(), t.ConfidenceField(), if t.Detected? then t.priceAction.priceChange else 0.0,
           v.LevelField(), v.ScoreField(), sr.nearSupport, sr.nearResistance, sr.breakoutPotential,
           volume.volumeSignal)
  }

  /** The successful report for a classification and its components. */
  function ReportOf(cl: Classification, t: TD.TrendReport, v: VA.VolatilityReport, sr: SupportResistance,
                    volume: VolumeAnalysis): (r: StateReport)
    ensures r.Classified? && r.marketState == cl.primaryState && r.confidence == cl.confidence
    ensures r.trendSubState == (if cl.trendState.Some? then cl.trendState.value.Value() else "N/A")
    ensures r.signals == GenerateTradingSignals(cl, v.LevelField())
  {
    Classified(cl.primaryState, cl.confidence, if cl.trendState.Some? then cl.trendState.value.Value() else "N/A",
               cl.volatilityState, cl.patternState, t, v, sr, volume, GenerateTradingSignals(cl, v.LevelField()),
               cl.summary, cl.recommendation, cl.conditions)
  }

  /**
   * `r` is what `classify_market_state` reports on the technical data:
   * unsuccessful data as it came; a classification exactly when the data is
   * successful and neither the level nor the volume analysis raises, else the
   * error of the first that raises; a classification is that of the trend,
   * volatility, level and volume analyses of the data.
   */
  predicate IsStateReport(technicalData: seq<(string, Value)>, c: MarketAnalysisConfig, r: StateReport)
  {
    && (!Truthy(GetOr(technicalData, "success", Null)) ==>
          r == Unclassified(GetOr(technicalData, "error", Str("技术数据获取失败"))))
    && (r.Classified? <==>
          Truthy(GetOr(technicalData, "success", Null))
          && SupportResistanceOf(technicalData).Ok? && AnalyzeVolume(technicalData).Ok?)
    && (Truthy(GetOr(technicalData, "success", Null)) && SupportResistanceOf(technicalData).Err? ==>
          r == Unclassified(Str(SupportResistanceOf(technicalData).msg)))
    && ((Truthy(GetOr(technicalData, "success", Null)) && SupportResistanceOf(technicalData).Ok?
         && AnalyzeVolume(technicalData).Err?) ==>
          r == Unclassified(Str(AnalyzeVolume(technicalData).msg)))
    && (r.Classified? ==>
          && TD.IsTrendReport(technicalData, c, r.trend)
          && r.volatility == VA.AnalyzeVolatility(technicalData)
          && SupportResistanceOf(technicalData) == Ok(r.supportResistance)
          && AnalyzeVolume(technicalData) == Ok(r.volume)
          && r == ReportOf(ClassifyMarket(InputsOf(r.trend, r.volatility, r.supportResistance, r.volume), c),
                           r.trend, r.volatility, r.supportResistance, r.volume))
  }

  class Classifier {
    const config: MarketAnalysisConfig
    var stateHistory: seq<HistoryEntry>
    /** Every entry ever recorded, oldest first. */
    ghost var log: seq<HistoryEntry>

    /** The history is the last 100 entries of the log. */
    ghost predicate Valid()
      reads this
    {
      stateHistory == TakeLast(log, HistoryCap)
    }

    /** `MarketClassifier(config)`, with an empty history. */
    constructor (c: MarketAnalysisConfig)
      ensures Valid() && config == c && stateHistory == [] && log == []
    {
      config := c;
      stateHistory := [];
      log := [];
    }

    /** `_update_state_history`: append the entry and keep the last 100. */
    method UpdateStateHistory(cl: Classification, now: int)
      requires Valid()
      modifies this`stateHistory, this`log
      ensures Valid()
      ensures log == old(log) + [HistoryEntry(now, cl.primaryState, cl.confidence, cl.conditions)]
      ensures stateHistory == AppendCapped(old(stateHistory), HistoryEntry(now, cl.primaryState, cl.confidence, cl.conditions), HistoryCap)
    {
      var entry := HistoryEntry(now, cl.primaryState, cl.confidence, cl.conditions);
      CappedSuffix(log, entry, HistoryCap);
      stateHistory := AppendCapped(stateHistory, entry, HistoryCap);
      log := log + [entry];
    }

    /**
     * `classify_market_state`: unsuccessful data is reported as it came;
     * otherwise the trend, volatility, level and volume analyses feed the
     * classification, which is recorded in the history. A level or volume
     * analysis that raises becomes a failure report and records nothing.
     */
    method ClassifyMarketState(technicalData: seq<(string, Value)>, now: int) returns (r: StateReport)
      requires Valid()
      modifies this`stateHistory, this`log
      ensures Valid()
      ensures IsStateReport(technicalData, config, r)
      ensures r.Unclassified? ==> stateHistory == old(stateHistory) && log == old(log)
      ensures r.Classified? ==> log == old(log) + [HistoryEntry(now, r.marketState, r.confidence, r.conditions)]
    {
      if !Truthy(GetOr(technicalData, "success", Null)) {
        return Unclassified(GetOr(technicalData, "error", Str("技术数据获取失败")));
      }
      var trend := TD.DetectTrend(technicalData, config);
      var volatility := VA.AnalyzeVolatility(technicalData);
      var sr := AnalyzeSupportResistance(technicalData);
      if sr.Err? {
        return Unclassified(Str(sr.msg));
      }
      var volume := AnalyzeVolume(technicalData);
      if volume.Err? {
        return Unclassified(Str(volume.msg));
      }
      var cl := ClassifyMarket(InputsOf(trend, volatility, sr.value, volume.value), config);
      UpdateStateHistory(cl, now);
      r := ReportOf(cl, trend, volatility, sr.value, volume.value);
    }

    /**
     * `get_state_transitions`: nothing with fewer than two entries, else the
     * transitions within the last `lookback` entries (Python's `[-lookback:]`).
     */
    method GetStateTransitions(lookback: int) returns (ts: seq<Transition>)
      ensures |stateHistory| < 2 ==> ts == []
      ensures |stateHistory| >= 2 ==> ts == TransitionsOf(TakeLast(stateHistory, lookback))
    {
      if |stateHistory| < 2 {
        return [];
      }
      var recent := TakeLast(stateHistory, lookback);
      ts := [];
      var i := 1;
      while i < |recent|
        invariant 1 <= i
        invariant i <= |recent| || recent == []
        invariant ts == TransitionsOf(if recent == [] then [] else recent[..i])
      {
        TransitionsPrefixStep(recent, i);
        if recent[i - 1].state != recent[i].state {
          ts := ts + [Transition(recent[i - 1].state.Value(), recent[i].state.Value(), recent[i].timestamp,
                                 recent[i].confidence - recent[i - 1].confidence)];
        }
        i := i + 1;
      }
      if recent != [] {
        WholePrefix(recent);
      }
    }

    /** `get_market_regime`: the regime of the most frequent state among the last 20 entries. */
    method GetMarketRegime() returns (regime: string)
      ensures regime == Regime(stateHistory)
    {
      if stateHistory == [] {
        return "unknown";
      }
      var names := StateNames(TakeLast(stateHistory, 20));
      var top := MarketUtils.WindowMode(names);
      regime := RegimeOf(top);
    }
  }
}
