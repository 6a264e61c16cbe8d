/**
 * The volatility analyser: ATR, Bollinger-band and price-range readings of
 * the technical data, each turned into a level, and their weighted score.
 */
module VolatilityAnalyzer {
  import opened Common

  /** The level names the analyser uses; any other name scores like "normal". */
  datatype Level = High | MediumHigh | Medium | Low | VeryLow | Normal | UnknownLevel
  {
    function Name(): string
    {
      match this
      case High => "high"
      case MediumHigh => "medium_high"
      case Medium => "medium"
      case Low => "low"
      case VeryLow => "very_low"
      case Normal => "normal"
      case UnknownLevel => "unknown"
    }
  }

  const CompareError := "TypeError: '>' not supported between these operands"

  // ------------------------------------------------------------------ ATR

  datatype AtrAnalysis = AtrAnalysis(level: Level, value: real, relativeValue: real, signal: string)

  /** ATR relative to the price: above 1.5% high, above 0.8% medium, else low. */
  function AtrLevel(ratio: real): (l: Level)
    ensures l == High <==> ratio > 0.015
    ensures l == Medium <==> 0.008 < ratio <= 0.015
    ensures l == Low <==> ratio <= 0.008
  {
    if ratio > 0.015 then High else if ratio > 0.008 then Medium else Low
  }

  /** A numeric ATR read against a positive price. */
  predicate AtrCase(atr: Option<real>, price: real, a: AtrAnalysis)
    requires price > 0.0
  {
    atr.Some? && a.level == AtrLevel(atr.value / price) && a.relativeValue == atr.value / price && a.value == atr.value
  }

  /**
   * `_analyze_atr`: without an ATR, or with a price that is not positive, the
   * level stays "normal"; otherwise the level of ATR over price.
   */
  function AnalyzeAtr(indicators: seq<(string, Value)>, priceData: seq<(string, Value)>): (r: Result<AtrAnalysis>)
    ensures r.Ok? && Present(indicators, "ATR").None? ==> r.value == AtrAnalysis(Normal, 0.0, 0.0, "neutral")
    ensures r.Ok? && Present(indicators, "ATR").Some? ==>
      AsNumber(GetOr(priceData, "current", Num(1.0))).Some?
      && var price := AsNumber(GetOr(priceData, "current", Num(1.0))).value;
      (price <= 0.0 ==> r.value.level == Normal)
      && (price > 0.0 ==> AtrCase(AsNumber(Present(indicators, "ATR").value), price, r.value))
    ensures r.Err? ==> Present(indicators, "ATR").Some?
  {
    match Present(indicators, "ATR")
    case None => Ok(AtrAnalysis(Normal, 0.0, 0.0, "neutral"))
    case Some(atrValue) =>
      match AsNumber(GetOr(priceData, "current", Num(1.0)))
      case None => Err(CompareError)
      case Some(price) =>
        if !(price > 0.0) then Ok(AtrAnalysis(Normal, 0.0, 0.0, "neutral"))
        else
          match AsNumber(atrValue)
          case None => Err("TypeError: unsupported operand type(s) for /")
          case Some(atr) =>
            var ratio := atr / price;
            var level := AtrLevel(ratio);
            var signal := if level == High then "high_volatility" else if level == Medium then "moderate_volatility" else "low_volatility";
            Ok(AtrAnalysis(level, atr, ratio, signal))
  }

  // ---------------------------------------------------------- Bollinger bands

  datatype BbAnalysis = BbAnalysis(isSqueeze: bool, width: real, position: real, signal: string)

  /** The width step: below 2% is a squeeze, above 5% an expansion. */
  function WidthStep(b: BbAnalysis, width: real): (r: BbAnalysis)
    ensures r.isSqueeze <==> b.isSqueeze || width < 0.02
    ensures r.width == width && r.position == b.position
  {
    if width < 0.02 then b.(width := width, isSqueeze := true, signal := "squeeze")
    else if width > 0.05 then b.(width := width, signal := "expansion")
    else b.(width := width)
  }

  /** The position step: near a band overrides the width signal. */
  function PositionStep(b: BbAnalysis, position: real): (r: BbAnalysis)
    ensures r.isSqueeze == b.isSqueeze && r.width == b.width && r.position == position
    ensures position > 0.8 ==> r.signal == "near_upper_band"
    ensures position < 0.2 ==> r.signal == "near_lower_band"
    ensures 0.2 <= position <= 0.8 ==> r.signal == b.signal
  {
    if position > 0.8 then b.(position := position, signal := "near_upper_band")
    else if position < 0.2 then b.(position := position, signal := "near_lower_band")
    else b.(position := position)
  }

  const DefaultBb := BbAnalysis(false, 0.0, 0.5, "normal")

  /** A present value as a number; comparing anything else raises. */
  function Reading(d: seq<(string, Value)>, k: string): (r: Result<Option<real>>)
    ensures r == Ok(None) <==> Present(d, k).None?
    ensures r.Ok? && r.value.Some? ==> AsNumber(Present(d, k).value) == r.value
  {
    match Present(d, k)
    case None => Ok(None)
    case Some(v) =>
      match AsNumber(v)
      case None => Err(CompareError)
      case Some(x) => Ok(Some(x))
  }

  /** A band width is given and below 2%. */
  predicate NarrowBands(indicators: seq<(string, Value)>)
  {
    var w := Reading(indicators, "BB_Width");
    w.Ok? && w.value.Some? && w.value.value < 0.02
  }

  /** `_analyze_bollinger_bands`. */
  function AnalyzeBollingerBands(indicators: seq<(string, Value)>): (r: Result<BbAnalysis>)
    ensures r.Ok? ==> (r.value.isSqueeze <==> NarrowBands(indicators))
    ensures r.Ok? && Reading(indicators, "BB_Position").Ok? && Reading(indicators, "BB_Position").value.Some? ==>
      var p := Reading(indicators, "BB_Position").value.value;
      (p > 0.8 ==> r.value.signal == "near_upper_band") && (p < 0.2 ==> r.value.signal == "near_lower_band")
  {
    match Reading(indicators, "BB_Width")
    case Err(e) => Err(e)
    case Ok(w) =>
      var b := if w.Some? then WidthStep(DefaultBb, w.value) else DefaultBb;
      match Reading(indicators, "BB_Position")
      case Err(e) => Err(e)
      case Ok(p) => Ok(if p.Some? then PositionStep(b, p.value) else b)
  }

  // ----------------------------------------------------------- price range

  datatype RangeAnalysis = RangeAnalysis(rangePct: real, level: Level, signal: string)

  /** Range tiers on the absolute change: above 3% high, above 1.5% medium, below 0.5% low, else normal. */
  function RangeOf(change: real): (r: RangeAnalysis)
    ensures r.rangePct == Abs(change)
    ensures r.level == High <==> Abs(change) > 0.03
    ensures r.level == Medium <==> 0.015 < Abs(change) <= 0.03
    ensures r.level == Low <==> Abs(change) < 0.005
    ensures r.level == Normal <==> 0.005 <= Abs(change) <= 0.015
  {
    var a := Abs(change);
    if a > 0.03 then RangeAnalysis(a, High, "wide_range")
    else if a > 0.015 then RangeAnalysis(a, Medium, "moderate_range")
    else if a < 0.005 then RangeAnalysis(a, Low, "narrow_range")
    else RangeAnalysis(a, Normal, "normal_range")
  }

  /** `_analyze_price_range`: `abs` of a change that is not a number raises. */
  function AnalyzePriceRange(technicalData: seq<(string, Value)>): (r: Result<RangeAnalysis>)
    ensures r.Ok? <==> AsNumber(GetOr(technicalData, "price_change_pct", Int(0))).Some?
    ensures r.Ok? ==> r.value == RangeOf(AsNumber(GetOr(technicalData, "price_change_pct", Int(0))).value)
  {
    match AsNumber(GetOr(technicalData, "price_change_pct", Int(0)))
    case None => Err("TypeError: bad operand type for abs()")
    case Some(x) => Ok(RangeOf(x))
  }

  // ----------------------------------------------------------- combination

  /** `_volatility_level_to_score`: names outside the map score 0.5. */
  function LevelScore(l: Level): (s: real)
    ensures 0.1 <= s <= 0.9
    ensures l == UnknownLevel ==> s == 0.5
  {
    match l
    case High => 0.9
    case MediumHigh => 0.7
    case Medium => 0.5
    case Low => 0.3
    case VeryLow => 0.1
    case Normal => 0.5
    case UnknownLevel => 0.5
  }

  function BbScore(b: BbAnalysis): (s: real)
    ensures s == 0.8 || s == 0.3 || s == 0.5
  {
    if b.isSqueeze then 0.8 else if b.width > 0.04 then 0.3 else 0.5
  }

  /** The combined level: above 0.7 high, above 0.5 medium-high, above 0.3 medium, above 0.2 low, else very low. */
  function ScoreLevel(score: real): (l: Level)
    ensures l == High <==> score > 0.7
    ensures l == MediumHigh <==> 0.5 < score <= 0.7
    ensures l == Medium <==> 0.3 < score <= 0.5
    ensures l == Low <==> 0.2 < score <= 0.3
    ensures l == VeryLow <==> score <= 0.2
  {
    if score > 0.7 then High else if score > 0.5 then MediumHigh
    else if score > 0.3 then Medium else if score > 0.2 then Low else VeryLow
  }

  /** The weighted score: 0.4 ATR, 0.3 Bollinger, 0.3 range. */
  function CombinedScore(atr: AtrAnalysis, bb: BbAnalysis, range: RangeAnalysis): (s: real)
    ensures 0.1 <= s <= 0.9
  {
    LevelScore(atr.level) * 0.4 + BbScore(bb) * 0.3 + LevelScore(range.level) * 0.3
  }

  datatype VolatilityResult = VolatilityResult(level: Level, score: real)

  /** `_combine_volatility_signals`. */
  function CombineVolatilitySignals(atr: AtrAnalysis, bb: BbAnalysis, range: RangeAnalysis): (r: VolatilityResult)
    ensures r.score == CombinedScore(atr, bb, range) && r.level == ScoreLevel(r.score)
    ensures 0.1 <= r.score <= 0.9
  {
    var s := CombinedScore(atr, bb, range);
    VolatilityResult(ScoreLevel(s), s)
  }

  /** The levels the ATR and range readings can produce keep the score within [0.3, 0.87]. */
  lemma ReachableScoreRange(atr: AtrAnalysis, bb: BbAnalysis, range: RangeAnalysis)
    requires atr.level in {High, Medium, Low, Normal} && range.level in {High, Medium, Low, Normal}
    ensures 0.3 <= CombinedScore(atr, bb, range) <= 0.87
  {
  }

  /** A squeeze with high ATR and a wide range is the highest reachable score; it reads "high". */
  lemma SqueezeWithWideRangeIsHigh(atr: AtrAnalysis, bb: BbAnalysis, range: RangeAnalysis)
    requires atr.level == High && bb.isSqueeze && range.level == High
    ensures CombineVolatilitySignals(atr, bb, range) == VolatilityResult(High, 0.87)
  {
  }

  // --------------------------------------------------------------- summary

  /** The description and advice of `_generate_volatility_summary`. */
  function LevelDescription(l: Level): string
  {
    match l
    case High => "高波动率"
    case MediumHigh => "中高波动率"
    case Medium => "中等波动率"
    case Low => "低波动率"
    case VeryLow => "极低波动率"
    case _ => "正常波动率"
  }

  function Advice(l: Level): (s: string)
    ensures l == High || l == MediumHigh ==> s == "市场波动较大，注意风险管理"
    ensures l == Low || l == VeryLow ==> s == "市场波动较小，可能即将突破"
  {
    if l == High || l == MediumHigh then "市场波动较大，注意风险管理"
    else if l == Low || l == VeryLow then "市场波动较小，可能即将突破"
    else "市场波动正常"
  }

  // -------------------------------------------------------------- analyse

  datatype VolatilityReport =
    | Analyzed(level: Level, score: real, atr: AtrAnalysis, bb: BbAnalysis, range: RangeAnalysis,
               description: string, advice: string)
    | NotAnalyzed(error: Value)
  {
    function LevelField(): string { if Analyzed? then level.Name() else "unknown" }
    function AtrLevelField(): string { if Analyzed? then atr.level.Name() else "unknown" }
    function SqueezeField(): bool { Analyzed? && bb.isSqueeze }
    function ScoreField(): real { if Analyzed? then score else 0.0 }
  }

  function DictField(d: seq<(string, Value)>, k: string): Option<seq<(string, Value)>>
  {
    match GetOr(d, k, Dict([]))
    case Dict(es) => Some(es)
    case _ => None
  }

  /**
   * `analyze_volatility`: unsuccessful technical data is reported with its
   * error; otherwise the three readings and their combination, and a
   * reading that raises is reported as a failure.
   */
  function AnalyzeVolatility(technicalData: seq<(string, Value)>): (r: VolatilityReport)
    ensures !Truthy(GetOr(technicalData, "success", Null)) ==>
      r == NotAnalyzed(GetOr(technicalData, "error", Str("技术数据获取失败")))
    ensures r.NotAnalyzed? ==>
      r.LevelField() == "unknown" && r.AtrLevelField() == "unknown" && !r.SqueezeField() && r.ScoreField() == 0.0
    ensures r.Analyzed? ==>
      0.1 <= r.score <= 0.9
      && VolatilityResult(r.level, r.score) == CombineVolatilitySignals(r.atr, r.bb, r.range)
      && AnalyzePriceRange(technicalData) == Ok(r.range)
      && DictField(technicalData, "latest_indicators").Some? && DictField(technicalData, "price_data").Some?
      && AnalyzeAtr(DictField(technicalData, "latest_indicators").value, DictField(technicalData, "price_data").value) == Ok(r.atr)
      && AnalyzeBollingerBands(DictField(technicalData, "latest_indicators").value) == Ok(r.bb)
      && r.description == LevelDescription(r.level) && r.advice == Advice(r.level)
  {
    if !Truthy(GetOr(technicalData, "success", Null)) then
      NotAnalyzed(GetOr(technicalData, "error", Str("技术数据获取失败")))
    else
      match (DictField(technicalData, "latest_indicators"), DictField(technicalData, "price_data"))
      case (Some(indicators), Some(priceData)) =>
        (match (AnalyzeAtr(indicators, priceData), AnalyzeBollingerBands(indicators), AnalyzePriceRange(technicalData))
         case (Ok(atr), Ok(bb), Ok(range)) =>
           var v := CombineVolatilitySignals(atr, bb, range);
           Analyzed(v.level, v.score, atr, bb, range, LevelDescription(v.level), Advice(v.level))
         case (Err(e), _, _) => NotAnalyzed(Str(e))
         case (_, Err(e), _) => NotAnalyzed(Str(e))
         case (_, _, Err(e)) => NotAnalyzed(Str(e)))
      case _ => NotAnalyzed(Str("AttributeError: object has no attribute 'get'"))
  }
}
