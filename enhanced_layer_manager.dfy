/**
 * The data-driven regime detector of the enhanced layer manager
 * (`DirectDataRegimeDetector`): technical, fundamental and risk scores are
 * merged into one regime-score dictionary, the dominant regime is the first
 * one of maximal score, and a recommendation text is built from it.
 *
 * Fetching (price frames, FRED/ECB/risk tools) happens outside: the fetched
 * values are parameters. Standard deviations of log returns are parameters
 * too (`recentVol`, `historicalVol`).
 */
module EnhancedLayerManager {
  import opened Common

  /** The regimes the detectors score, under the names the source's dictionaries use. */
  datatype Regime =
    | TrendingBull | TrendingBear | HighVolatility | LowVolatility | Ranging
    | BreakoutUp | BreakoutDown | MacroEvent | NewsDriven | QuantShock | Crisis
  {
    function Name(): string
    {
      match this
      case TrendingBull => "trending_bull"
      case TrendingBear => "trending_bear"
      case HighVolatility => "high_volatility"
      case LowVolatility => "low_volatility"
      case Ranging => "ranging"
      case BreakoutUp => "breakout_up"
      case BreakoutDown => "breakout_down"
      case MacroEvent => "macro_event"
      case NewsDriven => "news_driven"
      case QuantShock => "quant_shock"
      case Crisis => "crisis"
    }
  }

  /** A regime-score dictionary, in insertion order. */
  type Scores = seq<(Regime, real)>

  // ------------------------------------------------------------ dict.update

  /** `d.update(e)`: e's entries are assigned into d one by one, in e's order. */
  function UpdateWith(d: Scores, e: Scores): Scores
    decreases |e|
  {
    if |e| == 0 then d else UpdateWith(Put(d, e[0].0, e[0].1), e[1..])
  }

  /** After `d.update(e)` a key reads e's value when e has it, else d's. */
  lemma {:induction false} UpdateWithGet(d: Scores, e: Scores, k: Regime)
    requires Unique(Keys(e))
    decreases |e|
    ensures Get(UpdateWith(d, e), k) == if HasKey(e, k) then Get(e, k) else Get(d, k)
  {
    if |e| > 0 {
      assert Unique(Keys(e[1..])) by {
        forall i, j | 0 <= i < j < |e[1..]|
          ensures Keys(e[1..])[i] != Keys(e[1..])[j]
        {
          assert Keys(e[1..])[i] == Keys(e)[i + 1] && Keys(e[1..])[j] == Keys(e)[j + 1];
        }
      }
      UpdateWithGet(Put(d, e[0].0, e[0].1), e[1..], k);
      PutGet(d, e[0].0, e[0].1, k);
      if k == e[0].0 {
        assert !HasKey(e[1..], k) by {
          forall i | 0 <= i < |e[1..]|
            ensures e[1..][i].0 != k
          {
            assert Keys(e)[0] != Keys(e)[i + 1];
          }
        }
      } else {
        assert HasKey(e, k) <==> HasKey(e[1..], k) by {
          if HasKey(e, k) {
            var i :| 0 <= i < |e| && e[i].0 == k;
            assert e[1..][i - 1].0 == k;
          }
          if HasKey(e[1..], k) {
            var i :| 0 <= i < |e[1..]| && e[1..][i].0 == k;
            assert e[i + 1].0 == k;
          }
        }
      }
    }
  }

  /** `d.update(e)` keeps the keys of d distinct. */
  lemma {:induction false} UpdateWithUnique(d: Scores, e: Scores)
    requires Unique(Keys(d))
    decreases |e|
    ensures Unique(Keys(UpdateWith(d, e)))
  {
    if |e| > 0 {
      PutUnique(d, e[0].0, e[0].1);
      UpdateWithUnique(Put(d, e[0].0, e[0].1), e[1..]);
    }
  }

  // --------------------------------------------------------- price series

  /** The close, high and low columns of a price frame; the frame's length is that of `close`. */
  datatype Bars = Bars(close: seq<real>, high: seq<real>, low: seq<real>)
  {
    /** Prices are positive, so every ratio the detector forms has a non-zero divisor. */
    predicate Positive()
    {
      (forall i :: 0 <= i < |close| ==> close[i] > 0.0)
      && (forall i :: 0 <= i < |low| ==> low[i] > 0.0)
    }
  }

  function Highest(s: seq<real>): (r: real)
    requires |s| > 0
    ensures r in s && forall i :: 0 <= i < |s| ==> s[i] <= r
  {
    if |s| == 1 then s[0] else Max(s[0], Highest(s[1..]))
  }

  function Lowest(s: seq<real>): (r: real)
    requires |s| > 0
    ensures r in s && forall i :: 0 <= i < |s| ==> r <= s[i]
  {
    if |s| == 1 then s[0] else Min(s[0], Lowest(s[1..]))
  }

  /**
   * `_calculate_trend_score`: 0 below 50 prices; otherwise ten times a blend of
   * the 20-bar change and the distance from the 50-bar mean, clamped to [-1, 1].
   */
  function TrendScore(prices: seq<real>): (r: real)
    requires forall i :: 0 <= i < |prices| ==> prices[i] > 0.0
    ensures -1.0 <= r <= 1.0
    ensures |prices| < 50 ==> r == 0.0
  {
    if |prices| < 50 then 0.0
    else
      var last50 := prices[|prices| - 50..];
      SumPositive(last50);
      var sma := Mean(last50);
      var current := prices[|prices| - 1];
      var price20 := prices[|prices| - 20];
      var priceChange := (current - price20) / price20;
      var maDistance := (current - sma) / sma;
      Clamp((priceChange * 0.6 + maDistance * 0.4) * 10.0, -1.0, 1.0)
  }

  /**
   * `_calculate_volatility_score` with the annualised standard deviations of
   * the last ten and of all log returns given: 0.5 below 20 prices or for a zero
   * historical volatility, else the ratio capped at 2 and halved.
   */
  function VolatilityScore(count: nat, recentVol: real, historicalVol: real): (r: real)
    requires recentVol >= 0.0
    ensures 0.0 <= r <= 1.0
    ensures count < 20 || historicalVol <= 0.0 ==> r == 0.5
  {
    if count < 20 then 0.5
    else if historicalVol > 0.0 then
      var ratio := recentVol / historicalVol;
      assert ratio >= 0.0;
      Min(ratio, 2.0) / 2.0
    else 0.5
  }

  /**
   * `_calculate_momentum_score`: 0 below 30 prices; otherwise five times the
   * change of the 10-bar return against the preceding 20-bar return, clamped.
   */
  function MomentumScore(prices: seq<real>): (r: real)
    requires forall i :: 0 <= i < |prices| ==> prices[i] > 0.0
    ensures -1.0 <= r <= 1.0
    ensures |prices| < 30 ==> r == 0.0
  {
    if |prices| < 30 then 0.0
    else
      var p1 := prices[|prices| - 1];
      var p10 := prices[|prices| - 10];
      var p30 := prices[|prices| - 30];
      var recentReturn := (p1 - p10) / p10;
      var earlierReturn := (p10 - p30) / p30;
      Clamp((recentReturn - earlierReturn) * 5.0, -1.0, 1.0)
  }

  /**
   * `_calculate_range_score`: 0 below 20 highs or lows; otherwise the recent
   * ten-bar range relative to the whole range, capped at 1.5 and scaled to at
   * most 1; 0.5 when the whole range is not positive.
   */
  function RangeScore(high: seq<real>, low: seq<real>): (r: real)
    requires forall i :: 0 <= i < |low| ==> low[i] > 0.0
    ensures r <= 1.0
    ensures |high| < 20 || |low| < 20 ==> r == 0.0
  {
    if |high| < 20 || |low| < 20 then 0.0
    else
      var recentHigh := Highest(high[|high| - 10..]);
      var recentLow := Lowest(low[|low| - 10..]);
      var recentRange := (recentHigh - recentLow) / recentLow;
      var historicalHigh := Highest(high);
      var historicalLow := Lowest(low);
      var historicalRange := (historicalHigh - historicalLow) / historicalLow;
      if historicalRange > 0.0 then Min(recentRange / historicalRange, 1.5) / 1.5
      else 0.5
  }

  /** The regime scores `_detect_from_technical` derives from the four component scores. */
  function TechnicalFrom(trend: real, volatility: real, range: real, momentum: real): (r: Scores)
  {
    TrendPart(trend) + VolatilityPart(volatility) + RangePart(range) + MomentumPart(momentum)
  }

  function TrendPart(trend: real): Scores
  {
    if trend > 0.7 then [(TrendingBull, trend)]
    else if trend < -0.7 then [(TrendingBear, Abs(trend))]
    else []
  }

  function VolatilityPart(volatility: real): Scores
  {
    if volatility > 0.7 then [(HighVolatility, volatility)]
    else if volatility < 0.3 then [(LowVolatility, 1.0 - volatility)]
    else []
  }

  function RangePart(range: real): Scores
  {
    if range > 0.6 then [(Ranging, range)] else []
  }

  function MomentumPart(momentum: real): Scores
  {
    if momentum > 0.7 then [(BreakoutUp, momentum)]
    else if momentum < -0.7 then [(BreakoutDown, Abs(momentum))]
    else []
  }

  /** `_detect_from_technical` on a frame of positive prices. */
  function TechnicalScores(bars: Bars, recentVol: real, historicalVol: real): Scores
    requires bars.Positive() && recentVol >= 0.0
  {
    TechnicalFrom(TrendScore(bars.close), VolatilityScore(|bars.close|, recentVol, historicalVol),
                  RangeScore(bars.high, bars.low), MomentumScore(bars.close))
  }

  /** The group (0 to 3) of `_detect_from_technical` that can report a regime. */
  function GroupOf(g: Regime): nat
  {
    match g
    case TrendingBull => 0
    case TrendingBear => 0
    case HighVolatility => 1
    case LowVolatility => 1
    case Ranging => 2
    case _ => 3
  }

  /** Each technical regime is reported at most once: its entries come group by group. */
  lemma TechnicalUnique(trend: real, volatility: real, range: real, momentum: real)
    ensures Unique(Keys(TechnicalFrom(trend, volatility, range, momentum)))
  {
    var a, b, c, d := TrendPart(trend), VolatilityPart(volatility), RangePart(range), MomentumPart(momentum);
    var r := a + b + c + d;
    forall i, j | 0 <= i < j < |r|
      ensures Keys(r)[i] != Keys(r)[j]
    {
      GroupsOrdered(a, b, c, d, i, j);
    }
  }

  lemma GroupsOrdered(a: Scores, b: Scores, c: Scores, d: Scores, i: nat, j: nat)
    requires |a| <= 1 && |b| <= 1 && |c| <= 1 && |d| <= 1
    requires forall k :: 0 <= k < |a| ==> GroupOf(a[k].0) == 0
    requires forall k :: 0 <= k < |b| ==> GroupOf(b[k].0) == 1
    requires forall k :: 0 <= k < |c| ==> GroupOf(c[k].0) == 2
    requires forall k :: 0 <= k < |d| ==> GroupOf(d[k].0) == 3
    requires i < j < |a + b + c + d|
    ensures GroupOf((a + b + c + d)[i].0) < GroupOf((a + b + c + d)[j].0)
  {
    var r := a + b + c + d;
    assert forall k :: 0 <= k < |r| ==> GroupOf(r[k].0) == GroupIndex(|a|, |b|, |c|, k);
  }

  /** The group an index of the concatenation falls into. */
  function GroupIndex(na: nat, nb: nat, nc: nat, k: nat): nat
  {
    if k < na then 0 else if k < na + nb then 1 else if k < na + nb + nc then 2 else 3
  }

  /** Every technical score lies in (0.6, 1] when the component scores are in their ranges. */
  lemma TechnicalBounds(trend: real, volatility: real, range: real, momentum: real)
    requires -1.0 <= trend <= 1.0 && 0.0 <= volatility <= 1.0 && range <= 1.0 && -1.0 <= momentum <= 1.0
    ensures var r := TechnicalFrom(trend, volatility, range, momentum);
      forall i :: 0 <= i < |r| ==> 0.6 < r[i].1 <= 1.0
  {
    var a, b, c, d := TrendPart(trend), VolatilityPart(volatility), RangePart(range), MomentumPart(momentum);
    var r := a + b + c + d;
    forall i | 0 <= i < |r|
      ensures 0.6 < r[i].1 <= 1.0
    {
      assert r[i] in a || r[i] in b || r[i] in c || r[i] in d;
    }
  }

  /** Each technical regime is reported exactly when its component passes its threshold. */
  lemma TechnicalKeys(trend: real, volatility: real, range: real, momentum: real)
    ensures var r := TechnicalFrom(trend, volatility, range, momentum);
      (HasKey(r, TrendingBull) <==> trend > 0.7)
      && (HasKey(r, TrendingBear) <==> trend < -0.7)
      && (HasKey(r, HighVolatility) <==> volatility > 0.7)
      && (HasKey(r, LowVolatility) <==> volatility < 0.3)
      && (HasKey(r, Ranging) <==> range > 0.6)
      && (HasKey(r, BreakoutUp) <==> momentum > 0.7)
      && (HasKey(r, BreakoutDown) <==> momentum < -0.7)
      && !HasKey(r, MacroEvent) && !HasKey(r, NewsDriven) && !HasKey(r, QuantShock) && !HasKey(r, Crisis)
  {
    var a, b, c, d := TrendPart(trend), VolatilityPart(volatility), RangePart(range), MomentumPart(momentum);
    forall k: Regime
      ensures HasKey(a + b + c + d, k) <==>
        (|a| == 1 && a[0].0 == k) || (|b| == 1 && b[0].0 == k) || (|c| == 1 && c[0].0 == k) || (|d| == 1 && d[0].0 == k)
    {
      HasKeyConcat(a + b + c, d, k);
      HasKeyConcat(a + b, c, k);
      HasKeyConcat(a, b, k);
      HasKeySingle(a, k);
      HasKeySingle(b, k);
      HasKeySingle(c, k);
      HasKeySingle(d, k);
    }
  }

  // -------------------------------------------------------- fundamentals

  /** `_extract_macro_events`: the flags and counter it reports. */
  datatype EventSignals = EventSignals(hasImportantEvent: bool, hasNewsImpact: bool, eventCount: nat)

  /** `_extract_macro_events` does not look at the data: both flags stay false. */
  function MacroEvents(macro: seq<(string, Value)>): EventSignals
  {
    EventSignals(false, false, 0)
  }

  /**
   * `_detect_from_fundamental`: 0.8 for "macro_event" and 0.7 for "news_driven"
   * when the event flags say so. The symbol split only feeds unused locals
   * (and a malformed symbol is caught), so, with flags that are always false,
   * the result is always empty.
   */
  function FundamentalScores(macro: seq<(string, Value)>, symbol: string): (r: Scores)
    ensures r == []
  {
    var events := MacroEvents(macro);
    (if events.hasImportantEvent then [(MacroEvent, 0.8)] else [])
    + (if events.hasNewsImpact then [(NewsDriven, 0.7)] else [])
  }

  // -------------------------------------------------------------- fetching

  /**
   * The pair parsing of `get_macro_data` and `_detect_from_fundamental`: with a
   * "/", the two sides of the one "/" (more than one "/" fails to unpack and
   * raises); without, the first three characters and the rest.
   */
  function SplitPair(pair: string): (r: Result<(string, string)>)
  {
    if '/' in pair then
      var parts := Split(pair, '/');
      if |parts| == 2 then Ok((parts[0], parts[1])) else Err("ValueError: too many values to unpack")
    else Ok((Take(pair, 3), if |pair| <= 3 then "" else pair[3..]))
  }

  /** The parsed sides put the pair back together; a pair with exactly one "/" always parses. */
  lemma SplitPairMeaning(pair: string)
    ensures SplitPair(pair).Ok? && '/' in pair ==>
      var (b, q) := SplitPair(pair).value;
      pair == b + "/" + q && '/' !in b && '/' !in q
    ensures '/' !in pair ==>
      SplitPair(pair).Ok? && SplitPair(pair).value.0 + SplitPair(pair).value.1 == pair
      && |SplitPair(pair).value.0| == (if |pair| < 3 then |pair| else 3)
    ensures forall x, y :: pair == x + "/" + y && '/' !in x && '/' !in y ==> SplitPair(pair) == Ok((x, y))
  {
    var parts := Split(pair, '/');
    SplitJoin(pair, '/');
    if '/' in pair && |parts| == 2 {
      assert Join(parts, "/") == parts[0] + "/" + parts[1];
      forall c | c in parts[0] ensures c != '/' {
        var j :| 0 <= j < |parts[0]| && parts[0][j] == c;
      }
      forall c | c in parts[1] ensures c != '/' {
        var j :| 0 <= j < |parts[1]| && parts[1][j] == c;
      }
    }
    forall x, y | pair == x + "/" + y && '/' !in x && '/' !in y
      ensures SplitPair(pair) == Ok((x, y))
    {
      assert pair[|x|] == '/';
      SplitAt(x, y, '/');
      SplitFree(y, '/');
    }
  }

  /**
   * `get_macro_data`: US data when USD is on either side and EUR data when EUR
   * is, each kept only when truthy. `fred` and `ecb` are what the data tools
   * return or raise; any exception, including a malformed pair, gives {}.
   */
  function MacroData(available: bool, pair: string, fred: Result<Value>, ecb: Result<Value>): (r: seq<(string, Value)>)
  {
    if !available then []
    else match SplitPair(pair)
      case Err(_) => []
      case Ok((b, q)) =>
        var usd := b == "USD" || q == "USD";
        var eur := b == "EUR" || q == "EUR";
        if (usd && fred.Err?) || (eur && ecb.Err?) then []
        else
          (if usd && Truthy(fred.value) then [("us", fred.value)] else [])
          + (if eur && Truthy(ecb.value) then [("eu", ecb.value)] else [])
  }

  /**
   * The two keys of `get_macro_data`: "us" exactly for a USD pair whose FRED
   * data is truthy, "eu" exactly for an EUR pair whose ECB data is truthy, when
   * nothing raised; nothing else is ever stored, and any failure gives {}.
   */
  lemma MacroDataMeaning(available: bool, pair: string, fred: Result<Value>, ecb: Result<Value>)
    ensures var r := MacroData(available, pair, fred, ecb);
      forall i :: 0 <= i < |r| ==> (r[i].0 == "us" || r[i].0 == "eu") && Truthy(r[i].1)
    ensures !available || SplitPair(pair).Err? ==> MacroData(available, pair, fred, ecb) == []
    ensures available && SplitPair(pair).Ok? ==>
      var (b, q) := SplitPair(pair).value;
      var usd := b == "USD" || q == "USD";
      var eur := b == "EUR" || q == "EUR";
      var r := MacroData(available, pair, fred, ecb);
      ((usd && fred.Err?) || (eur && ecb.Err?) ==> r == [])
      && ((usd ==> fred.Ok?) && (eur ==> ecb.Ok?) ==>
            (HasKey(r, "us") <==> usd && Truthy(fred.value))
            && (HasKey(r, "eu") <==> eur && Truthy(ecb.value)))
  {
    var r := MacroData(available, pair, fred, ecb);
    if available && SplitPair(pair).Ok? {
      var (b, q) := SplitPair(pair).value;
      var usd := b == "USD" || q == "USD";
      var eur := b == "EUR" || q == "EUR";
      if (usd ==> fred.Ok?) && (eur ==> ecb.Ok?) {
        var u: seq<(string, Value)> := if usd && Truthy(fred.value) then [("us", fred.value)] else [];
        var e: seq<(string, Value)> := if eur && Truthy(ecb.value) then [("eu", ecb.value)] else [];
        assert r == u + e;
        HasKeyConcat(u, e, "us");
        HasKeyConcat(u, e, "eu");
        HasKeySingle(u, "us");
        HasKeySingle(e, "us");
        HasKeySingle(u, "eu");
        HasKeySingle(e, "eu");
      }
    }
  }

  /**
   * `get_risk_data`: the "risk_metrics" entry of a successful dict response
   * ({} when it has none); {} when the tools are missing, the call raised or
   * the response is not a successful dict.
   */
  function RiskData(available: bool, response: Result<Value>): (r: Value)
    ensures r != Dict([]) ==> available && response.Ok? && response.value.Dict?
  {
    if !available || response.Err? then Dict([])
    else match response.value
      case Dict(es) =>
        if Truthy(GetOr(es, "success", Null)) then GetOr(es, "risk_metrics", Dict([])) else Dict([])
      case _ => Dict([])
  }

  // ----------------------------------------------------------------- risk

  /**
   * `_detect_from_risk`. A missing metric reads 0. A non-numeric volatility
   * raises at its comparison and a non-numeric drawdown inside `abs`, before any
   * score is set; a non-numeric Sharpe ratio raises at the third rule, after the
   * first two scores are set. The exception is caught and the scores assigned so
   * far are returned.
   */
  function RiskScores(risk: seq<(string, Value)>): (r: Scores)
  {
    var vol := AsNumber(GetOr(risk, "annual_volatility", Int(0)));
    var mdd := AsNumber(GetOr(risk, "max_drawdown", Int(0)));
    var sharpe := AsNumber(GetOr(risk, "sharpe_ratio", Int(0)));
    if vol.None? || mdd.None? then []
    else if sharpe.None? then VolatilityRule(vol.value) + DrawdownRule(Abs(mdd.value))
    else VolatilityRule(vol.value) + DrawdownRule(Abs(mdd.value)) + SharpeRule(sharpe.value)
  }

  function VolatilityRule(vol: real): (r: Scores)
  {
    if vol > 0.15 then [(HighVolatility, Min(vol / 0.3, 1.0))] else []
  }

  function DrawdownRule(mdd: real): (r: Scores)
  {
    if mdd > 0.2 then [(Crisis, Min(mdd / 0.5, 1.0))] else []
  }

  function SharpeRule(sharpe: real): (r: Scores)
  {
    if Abs(sharpe) > 3.0 then [(QuantShock, 0.6)] else []
  }

  /** The risk rules set at most one score each, of their own regime, within (0.4, 1]. */
  lemma RiskRuleBounds(vol: real, mdd: real, sharpe: real)
    ensures forall i :: 0 <= i < |VolatilityRule(vol)| ==> 0.5 < VolatilityRule(vol)[i].1 <= 1.0
    ensures forall i :: 0 <= i < |DrawdownRule(mdd)| ==> 0.4 < DrawdownRule(mdd)[i].1 <= 1.0
    ensures forall i :: 0 <= i < |SharpeRule(sharpe)| ==> SharpeRule(sharpe)[i].1 == 0.6
  {
    if vol > 0.15 {
      assert vol / 0.3 > 0.5;
    }
    if mdd > 0.2 {
      assert mdd / 0.5 > 0.4;
    }
  }

  /**
   * With numeric metrics: high_volatility is min(vol/0.3, 1) exactly when
   * vol > 0.15, crisis is min(|mdd|/0.5, 1) exactly when |mdd| > 0.2, and
   * quant_shock is 0.6 exactly when |sharpe| > 3.
   */
  lemma RiskRules(risk: seq<(string, Value)>, vol: real, mdd: real, sharpe: real)
    requires AsNumber(GetOr(risk, "annual_volatility", Int(0))) == Some(vol)
    requires AsNumber(GetOr(risk, "max_drawdown", Int(0))) == Some(mdd)
    requires AsNumber(GetOr(risk, "sharpe_ratio", Int(0))) == Some(sharpe)
    ensures var r := RiskScores(risk);
      Unique(Keys(r))
      && Get(r, HighVolatility) == (if vol > 0.15 then Some(Min(vol / 0.3, 1.0)) else None)
      && Get(r, Crisis) == (if Abs(mdd) > 0.2 then Some(Min(Abs(mdd) / 0.5, 1.0)) else None)
      && Get(r, QuantShock) == (if Abs(sharpe) > 3.0 then Some(0.6) else None)
  {
    var a, b, c := VolatilityRule(vol), DrawdownRule(Abs(mdd)), SharpeRule(sharpe);
    assert RiskScores(risk) == a + b + c;
    RiskGet(a, b, c);
  }

  /** Reading the three single-entry rules back from their concatenation. */
  lemma RiskGet(a: Scores, b: Scores, c: Scores)
    requires |a| <= 1 && |b| <= 1 && |c| <= 1
    requires forall i :: 0 <= i < |a| ==> a[i].0 == HighVolatility
    requires forall i :: 0 <= i < |b| ==> b[i].0 == Crisis
    requires forall i :: 0 <= i < |c| ==> c[i].0 == QuantShock
    ensures Unique(Keys(a + b + c))
    ensures Get(a + b + c, HighVolatility) == (if |a| == 1 then Some(a[0].1) else None)
    ensures Get(a + b + c, Crisis) == (if |b| == 1 then Some(b[0].1) else None)
    ensures Get(a + b + c, QuantShock) == (if |c| == 1 then Some(c[0].1) else None)
  {
    forall k: Regime
      ensures Get(a + b + c, k) == if HasKey(a, k) then Get(a, k) else if HasKey(b, k) then Get(b, k) else Get(c, k)
      ensures HasKey(a, k) ==> !HasKey(b, k) && !HasKey(c, k)
      ensures HasKey(b, k) ==> !HasKey(c, k)
    {
      GetConcat(a + b, c, k);
      GetConcat(a, b, k);
      HasKeyConcat(a, b, k);
      HasKeySingle(a, k);
      HasKeySingle(b, k);
      HasKeySingle(c, k);
    }
    UniqueKeysConcat(a, b);
    forall k | HasKey(a + b, k)
      ensures !HasKey(c, k)
    {
      HasKeyConcat(a, b, k);
    }
    UniqueKeysConcat(a + b, c);
  }

  /** A non-numeric Sharpe ratio keeps the volatility and drawdown scores set before it raised. */
  lemma RiskPartialOnBadSharpe(risk: seq<(string, Value)>, vol: real, mdd: real)
    requires AsNumber(GetOr(risk, "annual_volatility", Int(0))) == Some(vol)
    requires AsNumber(GetOr(risk, "max_drawdown", Int(0))) == Some(mdd)
    requires AsNumber(GetOr(risk, "sharpe_ratio", Int(0))).None?
    ensures Get(RiskScores(risk), HighVolatility) == (if vol > 0.15 then Some(Min(vol / 0.3, 1.0)) else None)
    ensures Get(RiskScores(risk), Crisis) == (if Abs(mdd) > 0.2 then Some(Min(Abs(mdd) / 0.5, 1.0)) else None)
    ensures !HasKey(RiskScores(risk), QuantShock)
  {
    var a, b := VolatilityRule(vol), DrawdownRule(Abs(mdd));
    assert RiskScores(risk) == a + b + [];
    RiskGet(a, b, []);
  }

  /** A non-numeric volatility or drawdown raises before any score is set. */
  lemma RiskEmptyOnBadMetric(risk: seq<(string, Value)>)
    requires AsNumber(GetOr(risk, "annual_volatility", Int(0))).None? || AsNumber(GetOr(risk, "max_drawdown", Int(0))).None?
    ensures RiskScores(risk) == []
  {
  }

  /** Whatever the metrics, the risk scores have distinct keys and lie in (0.4, 1]. */
  lemma RiskShape(risk: seq<(string, Value)>)
    ensures Unique(Keys(RiskScores(risk)))
    ensures forall i :: 0 <= i < |RiskScores(risk)| ==> 0.4 < RiskScores(risk)[i].1 <= 1.0
  {
    var vol := AsNumber(GetOr(risk, "annual_volatility", Int(0)));
    var mdd := AsNumber(GetOr(risk, "max_drawdown", Int(0)));
    var sharpe := AsNumber(GetOr(risk, "sharpe_ratio", Int(0)));
    if vol.Some? && mdd.Some? {
      var a, b := VolatilityRule(vol.value), DrawdownRule(Abs(mdd.value));
      var c := if sharpe.Some? then SharpeRule(sharpe.value) else [];
      assert RiskScores(risk) == a + b + c;
      RiskPartsShape(vol.value, Abs(mdd.value), if sharpe.Some? then sharpe.value else 0.0, c);
    }
  }

  lemma RiskPartsShape(vol: real, mdd: real, sharpe: real, c: Scores)
    requires c == [] || c == SharpeRule(sharpe)
    ensures var r := VolatilityRule(vol) + DrawdownRule(mdd) + c;
      Unique(Keys(r)) && forall i :: 0 <= i < |r| ==> 0.4 < r[i].1 <= 1.0
  {
    var a, b := VolatilityRule(vol), DrawdownRule(mdd);
    RiskRuleBounds(vol, mdd, sharpe);
    RiskGet(a, b, c);
    var r := a + b + c;
    forall i | 0 <= i < |r|
      ensures 0.4 < r[i].1 <= 1.0
    {
      assert r[i] in a || r[i] in b || r[i] in c;
    }
  }

  // ------------------------------------------------------------ detection

  /** `_generate_recommendation`'s table; an unknown regime gets the cautious default. */
  function BaseRecommendation(regime: string, symbol: string): (r: string)
  {
    if regime == "trending_bull" then symbol + "处于上涨趋势，建议逢低买入"
    else if regime == "trending_bear" then symbol + "处于下跌趋势，建议逢高卖出"
    else if regime == "ranging" then symbol + "处于震荡整理，建议区间操作"
    else if regime == "high_volatility" then symbol + "波动率高，建议谨慎操作，严格止损"
    else if regime == "low_volatility" then symbol + "波动率低，适合套利策略"
    else if regime == "breakout_up" then symbol + "向上突破，可考虑追涨"
    else if regime == "breakout_down" then symbol + "向下突破，可考虑追空"
    else if regime == "macro_event" then symbol + "受宏观事件影响，关注基本面变化"
    else if regime == "news_driven" then symbol + "受新闻驱动，注意事件风险"
    else if regime == "quant_shock" then symbol + "出现量化异常，模型可能失效"
    else if regime == "crisis" then symbol + "处于危机模式，建议大幅减仓或对冲"
    else if regime == "uncertain" then symbol + "状态不确定，建议观望"
    else "建议谨慎操作"
  }

  const KnownRegimes: seq<string> := ["trending_bull", "trending_bear", "ranging", "high_volatility",
    "low_volatility", "breakout_up", "breakout_down", "macro_event", "news_driven", "quant_shock",
    "crisis", "uncertain"]

  /** A listed regime's text starts with the symbol; any other regime gets the default text. */
  lemma BaseRecommendationTable(regime: string, symbol: string)
    ensures regime in KnownRegimes ==> StartsWith(BaseRecommendation(regime, symbol), symbol)
    ensures regime !in KnownRegimes ==> BaseRecommendation(regime, symbol) == "建议谨慎操作"
  {
    if regime in KnownRegimes {
      var t := BaseRecommendation(regime, symbol);
      assert t[..|symbol|] == symbol;
    }
  }

  function ConfidenceLevel(confidence: real): string
  {
    if confidence > 0.7 then "高置信度"
    else if confidence > 0.5 then "中等置信度"
    else "低置信度"
  }

  /** Rank of a confidence label: low 0, medium 1, high 2. */
  function LevelRank(level: string): nat
  {
    if level == "高置信度" then 2 else if level == "中等置信度" then 1 else 0
  }

  /** A higher confidence never gets a lower label, and the labels tier at 0.5 and 0.7. */
  lemma ConfidenceLevelMonotone(c1: real, c2: real)
    requires c1 <= c2
    ensures LevelRank(ConfidenceLevel(c1)) <= LevelRank(ConfidenceLevel(c2))
    ensures LevelRank(ConfidenceLevel(c2)) == 2 <==> c2 > 0.7
    ensures LevelRank(ConfidenceLevel(c2)) == 0 <==> c2 <= 0.5
  {
  }

  function Recommendation(regime: string, confidence: real, symbol: string): string
  {
    ConfidenceLevel(confidence) + ": " + BaseRecommendation(regime, symbol)
  }

  /** Which inputs `detect` reports as present. */
  datatype DataSources = DataSources(marketData: bool, macroData: bool, riskData: bool)

  /** The dictionary `detect` returns; the no-data answer has no scores and no sources. */
  datatype Detection = Detection(
    dominantRegime: string,
    confidence: real,
    detectionMethod: string,
    recommendation: string,
    regimeScores: Option<Scores>,
    dataSources: Option<DataSources>)

  const NoData := Detection("uncertain", 0.3, "no_data", "等待更多数据", None, None)

  /** Technical, then fundamental, then risk scores, merged by `dict.update` in that order. */
  function MergedScores(market: Option<Bars>, macro: seq<(string, Value)>, risk: seq<(string, Value)>,
                        symbol: string, recentVol: real, historicalVol: real): Scores
    requires market.Some? ==> market.value.Positive()
    requires recentVol >= 0.0
  {
    var s0: Scores := [];
    var s1 := if market.Some? && |market.value.close| > 20
      then UpdateWith(s0, TechnicalScores(market.value, recentVol, historicalVol)) else s0;
    var s2 := if |macro| > 0 then UpdateWith(s1, FundamentalScores(macro, symbol)) else s1;
    if |risk| > 0 then UpdateWith(s2, RiskScores(risk)) else s2
  }

  /**
   * `detect`: the no-data answer when no source produced a score; otherwise the
   * first regime of maximal score, that score as confidence, its
   * recommendation and which sources were present.
   */
  method Detect(market: Option<Bars>, macro: seq<(string, Value)>, risk: seq<(string, Value)>,
                symbol: string, recentVol: real, historicalVol: real) returns (r: Detection)
    requires market.Some? ==> market.value.Positive()
    requires recentVol >= 0.0
    ensures var merged := MergedScores(market, macro, risk, symbol, recentVol, historicalVol);
      (|merged| == 0 ==> r == NoData)
      && (|merged| > 0 ==>
        r.detectionMethod == "data_driven"
        && r.regimeScores == Some(merged)
        && (exists i :: 0 <= i < |merged| && FirstMaximum(merged, i)
              && r.dominantRegime == merged[i].0.Name() && r.confidence == merged[i].1
              && Get(merged, merged[i].0) == Some(r.confidence))
        && r.recommendation == Recommendation(r.dominantRegime, r.confidence, symbol)
        && r.dataSources == Some(DataSources(market.Some?, |macro| > 0, |risk| > 0)))
  {
    var scores: Scores := [];
    if market.Some? && |market.value.close| > 20 {
      scores := UpdateWith(scores, TechnicalScores(market.value, recentVol, historicalVol));
    }
    if |macro| > 0 {
      scores := UpdateWith(scores, FundamentalScores(macro, symbol));
    }
    if |risk| > 0 {
      scores := UpdateWith(scores, RiskScores(risk));
    }
    if |scores| == 0 {
      return NoData;
    }
    MergedUnique(market, macro, risk, symbol, recentVol, historicalVol);
    var i := ArgMax(scores);
    var dominant := scores[i].0.Name();
    GetAt(scores, i);
    var confidence := scores[i].1;
    r := Detection(dominant, confidence, "data_driven", Recommendation(dominant, confidence, symbol),
                   Some(scores), Some(DataSources(market.Some?, |macro| > 0, |risk| > 0)));
  }

  /** The technical scores `detect` merges: none without a frame of more than 20 rows. */
  function TechnicalInput(market: Option<Bars>, recentVol: real, historicalVol: real): Scores
    requires market.Some? ==> market.value.Positive()
    requires recentVol >= 0.0
  {
    if market.Some? && |market.value.close| > 20 then TechnicalScores(market.value, recentVol, historicalVol) else []
  }

  /** The risk scores `detect` merges: none for empty risk data. */
  function RiskInput(risk: seq<(string, Value)>): Scores
  {
    if |risk| > 0 then RiskScores(risk) else []
  }

  lemma TechnicalInputShape(market: Option<Bars>, recentVol: real, historicalVol: real)
    requires market.Some? ==> market.value.Positive()
    requires recentVol >= 0.0
    ensures var t := TechnicalInput(market, recentVol, historicalVol);
      Unique(Keys(t)) && forall i :: 0 <= i < |t| ==> 0.6 < t[i].1 <= 1.0
  {
    if market.Some? && |market.value.close| > 20 {
      var bars := market.value;
      var trend, vol := TrendScore(bars.close), VolatilityScore(|bars.close|, recentVol, historicalVol);
      var range, momentum := RangeScore(bars.high, bars.low), MomentumScore(bars.close);
      TechnicalUnique(trend, vol, range, momentum);
      TechnicalBounds(trend, vol, range, momentum);
    }
  }

  /**
   * Merge order: a regime's merged score is the risk detector's when it scored
   * the regime (risk is merged last, so it overwrites), else the technical
   * detector's; the fundamental detector contributes nothing.
   */
  lemma MergedGet(market: Option<Bars>, macro: seq<(string, Value)>, risk: seq<(string, Value)>,
                  symbol: string, recentVol: real, historicalVol: real, k: Regime)
    requires market.Some? ==> market.value.Positive()
    requires recentVol >= 0.0
    ensures var t, q := TechnicalInput(market, recentVol, historicalVol), RiskInput(risk);
      Get(MergedScores(market, macro, risk, symbol, recentVol, historicalVol), k)
        == if HasKey(q, k) then Get(q, k) else Get(t, k)
  {
    var t, q := TechnicalInput(market, recentVol, historicalVol), RiskInput(risk);
    var e: Scores := [];
    assert UpdateWith(UpdateWith(e, t), q) == MergedScores(market, macro, risk, symbol, recentVol, historicalVol);
    TechnicalInputShape(market, recentVol, historicalVol);
    RiskShape(risk);
    UpdateWithGet(UpdateWith(e, t), q, k);
    UpdateWithGet(e, t, k);
  }

  /** When both detectors score high volatility, the risk score is the one kept. */
  lemma RiskOverridesTechnical(market: Option<Bars>, macro: seq<(string, Value)>, risk: seq<(string, Value)>,
                               symbol: string, recentVol: real, historicalVol: real)
    requires market.Some? ==> market.value.Positive()
    requires recentVol >= 0.0
    requires HasKey(TechnicalInput(market, recentVol, historicalVol), HighVolatility)
    requires HasKey(RiskInput(risk), HighVolatility)
    ensures Get(MergedScores(market, macro, risk, symbol, recentVol, historicalVol), HighVolatility)
      == Get(RiskInput(risk), HighVolatility)
    ensures Get(RiskInput(risk), HighVolatility) != Get(TechnicalInput(market, recentVol, historicalVol), HighVolatility)
      ==> Get(MergedScores(market, macro, risk, symbol, recentVol, historicalVol), HighVolatility)
          != Get(TechnicalInput(market, recentVol, historicalVol), HighVolatility)
  {
    MergedGet(market, macro, risk, symbol, recentVol, historicalVol, HighVolatility);
  }

  /** Every merged score, and so a data-driven confidence, lies in (0.4, 1]. */
  lemma MergedBounds(market: Option<Bars>, macro: seq<(string, Value)>, risk: seq<(string, Value)>,
                     symbol: string, recentVol: real, historicalVol: real)
    requires market.Some? ==> market.value.Positive()
    requires recentVol >= 0.0
    ensures var m := MergedScores(market, macro, risk, symbol, recentVol, historicalVol);
      forall i :: 0 <= i < |m| ==> 0.4 < m[i].1 <= 1.0
  {
    var m := MergedScores(market, macro, risk, symbol, recentVol, historicalVol);
    var t, q := TechnicalInput(market, recentVol, historicalVol), RiskInput(risk);
    MergedUnique(market, macro, risk, symbol, recentVol, historicalVol);
    TechnicalInputShape(market, recentVol, historicalVol);
    RiskShape(risk);
    forall i | 0 <= i < |m|
      ensures 0.4 < m[i].1 <= 1.0
    {
      assert forall j :: 0 <= j < i ==> m[j].0 != m[i].0 by {
        assert forall j :: 0 <= j < i ==> Keys(m)[j] != Keys(m)[i];
      }
      GetAt(m, i);
      MergedGet(market, macro, risk, symbol, recentVol, historicalVol, m[i].0);
    }
  }

  /** The merged dictionary has distinct keys. */
  lemma MergedUnique(market: Option<Bars>, macro: seq<(string, Value)>, risk: seq<(string, Value)>,
                     symbol: string, recentVol: real, historicalVol: real)
    requires market.Some? ==> market.value.Positive()
    requires recentVol >= 0.0
    ensures Unique(Keys(MergedScores(market, macro, risk, symbol, recentVol, historicalVol)))
  {
    var s0: Scores := [];
    var s1 := if market.Some? && |market.value.close| > 20
      then UpdateWith(s0, TechnicalScores(market.value, recentVol, historicalVol)) else s0;
    var s2 := if |macro| > 0 then UpdateWith(s1, FundamentalScores(macro, symbol)) else s1;
    if market.Some? && |market.value.close| > 20 {
      UpdateWithUnique(s0, TechnicalScores(market.value, recentVol, historicalVol));
    }
    if |macro| > 0 {
      UpdateWithUnique(s1, FundamentalScores(macro, symbol));
    }
    if |risk| > 0 {
      UpdateWithUnique(s2, RiskScores(risk));
    }
  }
}
