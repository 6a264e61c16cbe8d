/**
 * The trend detector: moving-average, price-action and momentum readings of
 * the latest technical indicators, combined into one direction with a
 * strength and a confidence.
 */
module TrendDetector {
  import opened Common
  import opened MarketConfig

  /** A component's or the combined trend direction. */
  datatype Direction = Bullish | Bearish | Neutral
  {
    function Name(): string
    {
      match this
      case Bullish => "bullish"
      case Bearish => "bearish"
      case Neutral => "neutral"
    }

    /** The opposite direction; neutral stays neutral. */
    function Flip(): Direction
    {
      match this
      case Bullish => Bearish
      case Bearish => Bullish
      case Neutral => Neutral
    }
  }

  /** Comparing a value that is not a number raises. */
  const CompareError := "TypeError: '>' not supported between these operands"

  // ------------------------------------------------------ moving averages

  const MaKeys: seq<string> := ["SMA_20", "SMA_50", "SMA_200", "EMA_20", "EMA_50", "EMA_200"]

  /** `{k: indicators.get(k) for k in keys if k in indicators}`. */
  function AvailableFrom(indicators: seq<(string, Value)>, keys: seq<string>): (r: seq<(string, Value)>)
    ensures forall e :: e in r ==> e.0 in keys && Get(indicators, e.0) == Some(e.1)
    ensures forall k :: k in keys && HasKey(indicators, k) ==> k in Keys(r)
  {
    if |keys| == 0 then []
    else
      var rest := AvailableFrom(indicators, keys[1..]);
      var here := if HasKey(indicators, keys[0]) then [(keys[0], Get(indicators, keys[0]).value)] else [];
      assert forall k :: k in Keys(rest) ==> k in Keys(here + rest) by {
        forall k | k in Keys(rest) ensures k in Keys(here + rest) {
          var i :| 0 <= i < |rest| && Keys(rest)[i] == k;
          assert Keys(here + rest)[|here| + i] == k;
        }
      }
      assert HasKey(indicators, keys[0]) ==> Keys(here + rest)[0] == keys[0];
      here + rest
  }

  function AvailableMas(indicators: seq<(string, Value)>): seq<(string, Value)>
  {
    AvailableFrom(indicators, MaKeys)
  }

  /**
   * The alignment check asks for EMA_5 and EMA_10, which are not among the
   * averages collected, so it never applies.
   */
  lemma AlignmentCheckNeverApplies(indicators: seq<(string, Value)>)
    ensures "EMA_5" !in Keys(AvailableMas(indicators))
  {
    var av := AvailableMas(indicators);
    forall i | 0 <= i < |av| ensures Keys(av)[i] != "EMA_5" {
      assert av[i] in av;
    }
  }

  /** The averages that are not None, as numbers, or the comparison error. */
  function MaReadings(av: seq<(string, Value)>): (r: Result<seq<(string, real)>>)
    ensures r.Ok? <==> forall i :: 0 <= i < |av| ==> av[i].1.Null? || AsNumber(av[i].1).Some?
  {
    if |av| == 0 then Ok([])
    else
      match MaReadings(av[1..])
      case Err(e) => Err(e)
      case Ok(rest) =>
        if av[0].1.Null? then Ok(rest)
        else match AsNumber(av[0].1)
          case None => Err(CompareError)
          case Some(x) => Ok([(av[0].0, x)] + rest)
  }

  /** How many averages the price is above. */
  function CountAbove(price: real, readings: seq<(string, real)>): (n: nat)
    ensures n <= |readings|
  {
    if |readings| == 0 then 0
    else CountAbove(price, readings[..|readings| - 1]) + (if price > readings[|readings| - 1].1 then 1 else 0)
  }

  /** The direction, strength and alignment for `above` of `total` averages. */
  datatype MaVerdict = MaVerdict(direction: Direction, strength: real, alignment: string)

  function VerdictOf(above: nat, total: nat): (v: MaVerdict)
    requires above <= total
    ensures total == 0 ==> v == MaVerdict(Neutral, 0.0, "mixed")
    ensures total > 0 ==>
      (v.direction == Bullish <==> above as real / total as real > 0.7)
      && (v.direction == Bearish <==> above as real / total as real < 0.3)
    ensures v.direction == Bullish ==> v.strength == above as real / total as real
    ensures v.direction == Bearish ==> v.strength == 1.0 - above as real / total as real
    ensures total > 0 && v.direction == Neutral ==> v.strength == 0.5
    ensures 0.0 <= v.strength <= 1.0
  {
    if total == 0 then MaVerdict(Neutral, 0.0, "mixed")
    else
      var ratio := above as real / total as real;
      DivBounds(above as real, total as real, 0.0, 1.0);
      if ratio > 0.7 then MaVerdict(Bullish, ratio, "bullish_alignment")
      else if ratio < 0.3 then MaVerdict(Bearish, 1.0 - ratio, "bearish_alignment")
      else MaVerdict(Neutral, 0.5, "mixed_alignment")
  }

  /** Below-count mirrored: more above is bullish exactly when more below is bearish. */
  lemma VerdictMirror(above: nat, total: nat)
    requires above <= total && total > 0
    ensures VerdictOf(above, total).direction == VerdictOf(total - above, total).direction.Flip()
    ensures VerdictOf(above, total).strength == VerdictOf(total - above, total).strength
  {
    var t := total as real;
    assert (total - above) as real / t == 1.0 - above as real / t by {
      assert (total - above) as real / t == t / t - above as real / t;
      assert t / t == 1.0;
    }
  }

  /** The text of one moving-average signal. */
  function SignalText(name: string, above: bool): string
  {
    if above then name + ": 价格在上方 (看涨)" else name + ": 价格在下方 (看跌)"
  }

  datatype MaAnalysis = MaAnalysis(direction: Direction, strength: real, alignment: string, signals: seq<string>)

  /** The averages can be read and, when there are any, compared with the price. */
  predicate MaReadable(indicators: seq<(string, Value)>, currentPrice: Value)
  {
    var readings := MaReadings(AvailableMas(indicators));
    readings.Ok? && (|readings.value| == 0 || AsNumber(currentPrice).Some?)
  }

  /**
   * `m` is the moving-average analysis: the verdict of how many averages the
   * price is above, and one signal per average that is present.
   */
  predicate IsMaAnalysis(indicators: seq<(string, Value)>, currentPrice: Value, m: MaAnalysis)
    requires MaReadable(indicators, currentPrice)
  {
    var rs := MaReadings(AvailableMas(indicators)).value;
    var price := if |rs| == 0 then 0.0 else AsNumber(currentPrice).value;
    var v := VerdictOf(CountAbove(price, rs), |rs|);
    m.direction == v.direction && m.strength == v.strength && m.alignment == v.alignment
    && |m.signals| == |rs|
    && forall i :: 0 <= i < |rs| ==> m.signals[i] == SignalText(rs[i].0, price > rs[i].1)
  }

  /**
   * `_analyze_moving_averages`: one signal per average that is present, and
   * the verdict of how many of them the price is above.
   */
  method AnalyzeMovingAverages(indicators: seq<(string, Value)>, currentPrice: Value) returns (r: Result<MaAnalysis>)
    ensures r.Ok? <==> MaReadable(indicators, currentPrice)
    ensures r.Ok? ==> IsMaAnalysis(indicators, currentPrice, r.value)
  {
    var av := AvailableMas(indicators);
    var readings := MaReadings(av);
    if readings.Err? {
      return Err(readings.msg);
    }
    var rs := readings.value;
    if |rs| > 0 && AsNumber(currentPrice).None? {
      return Err(CompareError);
    }
    var price := if |rs| == 0 then 0.0 else AsNumber(currentPrice).value;
    var above, signals := CountAboveAverages(price, rs);
    var v := VerdictOf(above, |rs|);
    r := Ok(MaAnalysis(v.direction, v.strength, v.alignment, signals));
  }

  /** The loop of `_analyze_moving_averages`: the count of averages below the price, and one signal each. */
  method CountAboveAverages(price: real, rs: seq<(string, real)>) returns (above: nat, signals: seq<string>)
    ensures above == CountAbove(price, rs)
    ensures |signals| == |rs| && forall k :: 0 <= k < |rs| ==> signals[k] == SignalText(rs[k].0, price > rs[k].1)
  {
    above := 0;
    signals := [];
    var i := 0;
    while i < |rs|
      invariant 0 <= i <= |rs|
      invariant above == CountAbove(price, rs[..i])
      invariant |signals| == i
      invariant forall k :: 0 <= k < i ==> signals[k] == SignalText(rs[k].0, price > rs[k].1)
    {
      assert rs[..i + 1][..i] == rs[..i];
      if price > rs[i].1 {
        above := above + 1;
      }
      signals := signals + [SignalText(rs[i].0, price > rs[i].1)];
      i := i + 1;
    }
    assert rs[..i] == rs;
  }

  // --------------------------------------------------------- price action

  datatype PriceAction = PriceAction(direction: Direction, strength: real, priceChange: real, highLow: string)

  /** `_analyze_price_action` for a numeric change: strong tiers before moderate ones. */
  function PriceActionOf(change: real, c: MarketAnalysisConfig): (p: PriceAction)
    ensures p.priceChange == change
    ensures p.direction == Bullish <==> change > c.strongTrendThreshold || change > c.trendingThreshold
    ensures p.direction == Bearish <==>
      !(change > c.strongTrendThreshold || change > c.trendingThreshold)
      && (change < -c.strongTrendThreshold || change < -c.trendingThreshold)
    ensures 0.0 <= p.strength <= 1.0
    ensures p.highLow == "sideways" <==> p.direction == Neutral
    ensures p.direction == Neutral ==> p.strength == 0.3
  {
    var a := Abs(change);
    if change > c.strongTrendThreshold then PriceAction(Bullish, Min(a / 0.05, 1.0), change, "strong_bullish")
    else if change > c.trendingThreshold then PriceAction(Bullish, Min(a / 0.03, 1.0), change, "moderate_bullish")
    else if change < -c.strongTrendThreshold then PriceAction(Bearish, Min(a / 0.05, 1.0), change, "strong_bearish")
    else if change < -c.trendingThreshold then PriceAction(Bearish, Min(a / 0.03, 1.0), change, "moderate_bearish")
    else PriceAction(Neutral, 0.3, change, "sideways")
  }

  /** `technical_data.get('price_change_pct', 0)`: `abs` of a value that is not a number raises. */
  function AnalyzePriceAction(technicalData: seq<(string, Value)>, c: MarketAnalysisConfig): (r: Result<PriceAction>)
    ensures r.Ok? <==> AsNumber(GetOr(technicalData, "price_change_pct", Int(0))).Some?
    ensures r.Ok? ==> r.value == PriceActionOf(AsNumber(GetOr(technicalData, "price_change_pct", Int(0))).value, c)
  {
    match AsNumber(GetOr(technicalData, "price_change_pct", Int(0)))
    case None => Err("TypeError: bad operand type for abs()")
    case Some(x) => Ok(PriceActionOf(x, c))
  }

  /** With the default thresholds a rise of more than 1.5% reads bullish and a fall of more than 1.5% bearish. */
  lemma DefaultPriceActionTiers(change: real)
    ensures PriceActionOf(change, DefaultConfig()).direction == Bullish <==> change > 0.015
    ensures PriceActionOf(change, DefaultConfig()).direction == Bearish <==> change < -0.015
  {
    var c := DefaultConfig();
    assert c.strongTrendThreshold == 0.03;
  }

  // ------------------------------------------------------------- momentum

  datatype Momentum = Momentum(direction: Direction, strength: real, rsiSignal: string, macdSignal: string, stochasticSignal: string)

  const NeutralMomentum := Momentum(Neutral, 0.0, "neutral", "neutral", "neutral")

  /** The RSI step, starting from the neutral result. */
  function RsiStep(m: Momentum, rsi: real, c: MarketAnalysisConfig): (r: Momentum)
    ensures r.macdSignal == m.macdSignal && r.stochasticSignal == m.stochasticSignal
    ensures r.strength >= m.strength
    ensures rsi > c.rsiOverbought ==> r.direction == Bearish && r.rsiSignal == "overbought"
    ensures !(rsi > c.rsiOverbought) && !(rsi > c.rsiNeutralUpper) && rsi < c.rsiOversold ==>
      r.direction == Bullish && r.rsiSignal == "oversold"
  {
    if rsi > c.rsiOverbought then m.(rsiSignal := "overbought", direction := Bearish, strength := Max(m.strength, 0.7))
    else if rsi > c.rsiNeutralUpper then
      if m.direction != Bearish then m.(rsiSignal := "bullish", direction := Bullish, strength := Max(m.strength, 0.5))
      else m.(rsiSignal := "bullish")
    else if rsi < c.rsiOversold then m.(rsiSignal := "oversold", direction := Bullish, strength := Max(m.strength, 0.7))
    else if rsi < c.rsiNeutralLower then
      if m.direction != Bullish then m.(rsiSignal := "bearish", direction := Bearish, strength := Max(m.strength, 0.5))
      else m.(rsiSignal := "bearish")
    else m
  }

  /** The MACD step: it only sets a direction that is not already the opposite one. */
  function MacdStep(m: Momentum, macd: real, signal: real): (r: Momentum)
    ensures m.direction == Bearish ==> r.direction == Bearish
    ensures m.direction == Bullish ==> r.direction == Bullish
    ensures m.direction == Neutral ==> r.direction == (if macd > signal then Bullish else Bearish)
    ensures r.macdSignal == (if macd > signal then "bullish" else "bearish")
    ensures r.strength >= m.strength && r.rsiSignal == m.rsiSignal
  {
    if macd > signal then
      if m.direction != Bearish then m.(macdSignal := "bullish", direction := Bullish, strength := Max(m.strength, 0.6))
      else m.(macdSignal := "bullish")
    else
      if m.direction != Bullish then m.(macdSignal := "bearish", direction := Bearish, strength := Max(m.strength, 0.6))
      else m.(macdSignal := "bearish")
  }

  /** The stochastic signal: both above 80, both below 20, else K against D. */
  function StochasticSignal(k: real, d: real): (s: string)
    ensures s == "overbought" <==> k > 80.0 && d > 80.0
    ensures s == "oversold" <==> !(k > 80.0 && d > 80.0) && k < 20.0 && d < 20.0
  {
    if k > 80.0 && d > 80.0 then "overbought"
    else if k < 20.0 && d < 20.0 then "oversold"
    else if k > d then "bullish"
    else "bearish"
  }

  /** Both values of a pair that is present, as numbers; None when either is absent. */
  function PresentPair(indicators: seq<(string, Value)>, a: string, b: string): Result<Option<(real, real)>>
  {
    match (Present(indicators, a), Present(indicators, b))
    case (Some(x), Some(y)) =>
      if AsNumber(x).Some? && AsNumber(y).Some? then Ok(Some((AsNumber(x).value, AsNumber(y).value)))
      else Err(CompareError)
    case _ => Ok(None)
  }

  /** `_analyze_momentum`: RSI, then MACD against its signal line, then the stochastic pair. */
  function AnalyzeMomentum(indicators: seq<(string, Value)>, c: MarketAnalysisConfig): (r: Result<Momentum>)
    ensures r.Ok? ==> 0.0 <= r.value.strength <= 0.7
    ensures r.Ok? && Present(indicators, "RSI").None? && PresentPair(indicators, "MACD", "MACD_Signal") == Ok(None) ==>
      r.value.direction == Neutral && r.value.strength == 0.0
  {
    var afterRsi :=
      match Present(indicators, "RSI")
      case None => Ok(NeutralMomentum)
      case Some(v) =>
        match AsNumber(v)
        case None => Err(CompareError)
        case Some(x) => Ok(RsiStep(NeutralMomentum, x, c));
    if afterRsi.Err? then Err(afterRsi.msg)
    else
      var m1 := afterRsi.value;
      assert 0.0 <= m1.strength <= 0.7;
      match PresentPair(indicators, "MACD", "MACD_Signal")
      case Err(e) => Err(e)
      case Ok(macd) =>
        var m2 := if macd.Some? then MacdStep(m1, macd.value.0, macd.value.1) else m1;
        assert 0.0 <= m2.strength <= 0.7;
        match PresentPair(indicators, "Stoch_K", "Stoch_D")
        case Err(e) => Err(e)
        case Ok(stoch) =>
          Ok(if stoch.Some? then m2.(stochasticSignal := StochasticSignal(stoch.value.0, stoch.value.1)) else m2)
  }

  /** A direction set by RSI is never turned into the opposite one by MACD. */
  lemma MacdNeverOverridesRsi(rsi: real, macd: real, signal: real, c: MarketAnalysisConfig)
    ensures var m := RsiStep(NeutralMomentum, rsi, c);
      m.direction != Neutral ==> MacdStep(m, macd, signal).direction == m.direction
  {
  }

  // ---------------------------------------------------------- combination

  datatype TrendResult = TrendResult(direction: Direction, strength: real, confidence: real)

  /** A weighted strength counted towards a direction. */
  function Toward(d: Direction, target: Direction, weighted: real): real
  {
    if d == target then weighted else 0.0
  }

  /** The score of one direction: moving averages weigh 0.4, price action and momentum 0.3 each. */
  function Score(target: Direction, ma: MaAnalysis, pa: PriceAction, mo: Momentum): real
  {
    Toward(ma.direction, target, ma.strength * 0.4) + Toward(pa.direction, target, pa.strength * 0.3)
    + Toward(mo.direction, target, mo.strength * 0.3)
  }

  predicate NonNegativeStrengths(ma: MaAnalysis, pa: PriceAction, mo: Momentum)
  {
    ma.strength >= 0.0 && pa.strength >= 0.0 && mo.strength >= 0.0
  }

  /**
   * `_combine_trend_signals`: no directional score leaves a neutral result
   * of confidence 0.3; a side wins when its score exceeds 1.5 times the
   * other's, with its share of the total as strength; otherwise neutral at
   * 0.5. The confidence is 1.5 times the strength, at most 0.95.
   */
  function CombineTrendSignals(ma: MaAnalysis, pa: PriceAction, mo: Momentum): (r: TrendResult)
    ensures var bull := Score(Bullish, ma, pa, mo); var bear := Score(Bearish, ma, pa, mo);
      (bull + bear == 0.0 ==> r == TrendResult(Neutral, 0.0, 0.3))
      && (bull + bear != 0.0 ==>
        (r.direction == Bullish <==> bull > bear * 1.5)
        && (r.direction == Bearish <==> !(bull > bear * 1.5) && bear > bull * 1.5)
        && (r.direction == Neutral ==> r.strength == 0.5)
        && r.confidence == Min(r.strength * 1.5, 0.95))
    ensures r.confidence <= 0.95
  {
    var bull := Score(Bullish, ma, pa, mo);
    var bear := Score(Bearish, ma, pa, mo);
    var total := bull + bear;
    if total == 0.0 then TrendResult(Neutral, 0.0, 0.3)
    else
      var direction := if bull > bear * 1.5 then Bullish else if bear > bull * 1.5 then Bearish else Neutral;
      var strength := if direction == Bullish then bull / total else if direction == Bearish then bear / total else 0.5;
      TrendResult(direction, strength, Min(strength * 1.5, 0.95))
  }

  /** With non-negative component strengths, the combined strength is a share in [0, 1] and the confidence is not negative. */
  lemma CombinedBounds(ma: MaAnalysis, pa: PriceAction, mo: Momentum)
    requires NonNegativeStrengths(ma, pa, mo)
    ensures var r := CombineTrendSignals(ma, pa, mo);
      0.0 <= r.strength <= 1.0 && 0.0 <= r.confidence <= 0.95
  {
    var bull := Score(Bullish, ma, pa, mo);
    var bear := Score(Bearish, ma, pa, mo);
    assert 0.0 <= bull && 0.0 <= bear by {
      MulNonNegative(ma.strength, 0.4);
      MulNonNegative(pa.strength, 0.3);
      MulNonNegative(mo.strength, 0.3);
    }
    var total := bull + bear;
    if total != 0.0 {
      DivBounds(bull, total, 0.0, 1.0);
      DivBounds(bear, total, 0.0, 1.0);
    }
  }

  /** With non-negative strengths the two winning conditions exclude each other. */
  lemma WinnersExclusive(bull: real, bear: real)
    requires bull >= 0.0 && bear >= 0.0 && bull + bear != 0.0
    ensures !(bull > bear * 1.5 && bear > bull * 1.5)
  {
  }

  function FlipMa(m: MaAnalysis): MaAnalysis { m.(direction := m.direction.Flip()) }
  function FlipPa(p: PriceAction): PriceAction { p.(direction := p.direction.Flip()) }
  function FlipMo(m: Momentum): Momentum { m.(direction := m.direction.Flip()) }

  lemma ScoreFlip(target: Direction, ma: MaAnalysis, pa: PriceAction, mo: Momentum)
    requires target != Neutral
    ensures Score(target.Flip(), FlipMa(ma), FlipPa(pa), FlipMo(mo)) == Score(target, ma, pa, mo)
  {
  }

  /** Swapping bullish and bearish in every component swaps the combined direction and keeps strength and confidence. */
  lemma CombineSymmetric(ma: MaAnalysis, pa: PriceAction, mo: Momentum)
    requires NonNegativeStrengths(ma, pa, mo)
    ensures var r := CombineTrendSignals(ma, pa, mo);
      var s := CombineTrendSignals(FlipMa(ma), FlipPa(pa), FlipMo(mo));
      s.direction == r.direction.Flip() && s.strength == r.strength && s.confidence == r.confidence
  {
    ScoreFlip(Bullish, ma, pa, mo);
    ScoreFlip(Bearish, ma, pa, mo);
    var bull := Score(Bullish, ma, pa, mo);
    var bear := Score(Bearish, ma, pa, mo);
    assert 0.0 <= bull && 0.0 <= bear by {
      MulNonNegative(ma.strength, 0.4);
      MulNonNegative(pa.strength, 0.3);
      MulNonNegative(mo.strength, 0.3);
    }
    assert bear + bull == bull + bear;
  }

  // ------------------------------------------------------------ strength tiers

  /** `identify_trend_strength`. */
  function IdentifyTrendStrength(s: real): (t: TrendStrength)
    ensures t == Strong <==> s > 0.8
    ensures t == Moderate <==> 0.6 < s <= 0.8
    ensures t == Weak <==> 0.4 < s <= 0.6
    ensures t == NoTrend <==> s <= 0.4
  {
    if s > 0.8 then Strong else if s > 0.6 then Moderate else if s > 0.4 then Weak else NoTrend
  }

  function TierRank(t: TrendStrength): nat
  {
    match t
    case NoTrend => 0
    case Weak => 1
    case Moderate => 2
    case Strong => 3
  }

  /** A larger strength never falls into a lower tier. */
  lemma TierMonotone(s: real, u: real)
    requires s <= u
    ensures TierRank(IdentifyTrendStrength(s)) <= TierRank(IdentifyTrendStrength(u))
  {
  }

  // --------------------------------------------------------------- summary

  /** The description chosen by `_generate_trend_summary`. */
  function TrendDescription(direction: Direction, strength: real): string
  {
    match direction
    case Bullish =>
      if strength > 0.8 then "强烈上涨趋势" else if strength > 0.6 then "明确上涨趋势"
      else if strength > 0.4 then "温和上涨趋势" else "轻微上涨倾向"
    case Bearish =>
      if strength > 0.8 then "强烈下跌趋势" else if strength > 0.6 then "明确下跌趋势"
      else if strength > 0.4 then "温和下跌趋势" else "轻微下跌倾向"
    case Neutral =>
      if strength > 0.7 then "明显横盘整理" else if strength > 0.5 then "横盘震荡" else "无明确方向"
  }

  function ConfidenceLabel(confidence: real): (s: string)
    ensures s == "高" <==> confidence > 0.7
    ensures s == "低" <==> confidence <= 0.5
  {
    if confidence > 0.7 then "高" else if confidence > 0.5 then "中" else "低"
  }

  /** The described tier of a directional trend follows the strength tiers. */
  lemma DescriptionFollowsTier(direction: Direction, strength: real)
    requires direction != Neutral
    ensures IdentifyTrendStrength(strength) == Strong <==>
      TrendDescription(direction, strength) in {"强烈上涨趋势", "强烈下跌趋势"}
  {
  }

  // ---------------------------------------------------------------- detect

  datatype TrendReport =
    | Detected(trend: Direction, strength: real, confidence: real, ma: MaAnalysis, priceAction: PriceAction,
               momentum: Momentum, description: string, confidenceLabel: string)
    | NotDetected(error: Value)
  {
    /** The `trend` field: the direction name, or "unknown" on failure. */
    function TrendName(): string
    {
      if Detected? then trend.Name() else "unknown"
    }

    /** The `strength` field: the combined strength, or "none" on failure. */
    function StrengthField(): Value
    {
      if Detected? then Num(strength) else Str("none")
    }

    function ConfidenceField(): real
    {
      if Detected? then confidence else 0.0
    }
  }

  /** A field read as a dictionary, `{}` when missing. */
  function DictField(d: seq<(string, Value)>, k: string): Option<seq<(string, Value)>>
  {
    match GetOr(d, k, Dict([]))
    case Dict(es) => Some(es)
    case _ => None
  }

  /** The current price `detect_trend` passes on: `price_data.current`, 0 when missing. */
  function CurrentPrice(priceData: seq<(string, Value)>): Value
  {
    GetOr(priceData, "current", Int(0))
  }

  /**
   * The three readings of successful technical data can be taken: the
   * indicator and price fields are dictionaries and no reading raises.
   */
  predicate ReadingsSucceed(technicalData: seq<(string, Value)>, c: MarketAnalysisConfig)
  {
    && DictField(technicalData, "latest_indicators").Some?
    && DictField(technicalData, "price_data").Some?
    && MaReadable(DictField(technicalData, "latest_indicators").value,
                  CurrentPrice(DictField(technicalData, "price_data").value))
    && AnalyzePriceAction(technicalData, c).Ok?
    && AnalyzeMomentum(DictField(technicalData, "latest_indicators").value, c).Ok?
  }

  /**
   * `r` is what `detect_trend` reports: unsuccessful technical data with its
   * error; a trend exactly when the data is successful and its three readings
   * can be taken, and then the combination of the moving-average, price-action
   * and momentum readings of that data, described by its tier.
   */
  predicate IsTrendReport(technicalData: seq<(string, Value)>, c: MarketAnalysisConfig, r: TrendReport)
  {
    && (!Truthy(GetOr(technicalData, "success", Null)) ==>
          r == NotDetected(GetOr(technicalData, "error", Str("技术数据获取失败"))))
    && (r.Detected? <==> Truthy(GetOr(technicalData, "success", Null)) && ReadingsSucceed(technicalData, c))
    && (r.Detected? ==>
          && ReadingsSucceed(technicalData, c)
          && IsMaAnalysis(DictField(technicalData, "latest_indicators").value,
                          CurrentPrice(DictField(technicalData, "price_data").value), r.ma)
          && AnalyzePriceAction(technicalData, c) == Ok(r.priceAction)
          && AnalyzeMomentum(DictField(technicalData, "latest_indicators").value, c) == Ok(r.momentum)
          && TrendResult(r.trend, r.strength, r.confidence) == CombineTrendSignals(r.ma, r.priceAction, r.momentum)
          && r.description == TrendDescription(r.trend, r.strength)
          && r.confidenceLabel == ConfidenceLabel(r.confidence))
  }

  /**
   * `detect_trend`: unsuccessful technical data is reported with its error;
   * otherwise the three readings are combined, and a reading that raises is
   * reported as a failure.
   */
  method DetectTrend(technicalData: seq<(string, Value)>, c: MarketAnalysisConfig) returns (r: TrendReport)
    ensures IsTrendReport(technicalData, c, r)
    ensures r.NotDetected? ==> r.TrendName() == "unknown" && r.StrengthField() == Str("none") && r.ConfidenceField() == 0.0
    ensures r.Detected? ==> r.confidence <= 0.95
  {
    if !Truthy(GetOr(technicalData, "success", Null)) {
      return NotDetected(GetOr(technicalData, "error", Str("技术数据获取失败")));
    }
    var indicators := DictField(technicalData, "latest_indicators");
    var priceData := DictField(technicalData, "price_data");
    if indicators.None? || priceData.None? {
      return NotDetected(Str("AttributeError: object has no attribute 'get'"));
    }
    var ma := AnalyzeMovingAverages(indicators.value, CurrentPrice(priceData.value));
    if ma.Err? {
      return NotDetected(Str(ma.msg));
    }
    var pa := AnalyzePriceAction(technicalData, c);
    if pa.Err? {
      return NotDetected(Str(pa.msg));
    }
    var mo := AnalyzeMomentum(indicators.value, c);
    if mo.Err? {
      return NotDetected(Str(mo.msg));
    }
    var t := CombineTrendSignals(ma.value, pa.value, mo.value);
    r := Detected(t.direction, t.strength, t.confidence, ma.value, pa.value, mo.value,
                  TrendDescription(t.direction, t.strength), ConfidenceLabel(t.confidence));
  }
}
