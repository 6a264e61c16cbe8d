/**
 * Layer-specific weight adjustment: each agent layer (analyst, researcher,
 * debator, trader, manager) has its own adjustment speed, weight bounds, error
 * metric and volatility tolerance, and the adjusted weight is a blend of the
 * base weight with a metric-dependent adjustment, scaled by volatility and
 * clamped to the layer's bounds.
 */
module LayerManager {
  import opened Common

  datatype AgentLayer = Analyst | Researcher | Debator | Trader | Manager
  {
    /** The enum's string value. */
    function Value(): string
    {
      match this
      case Analyst => "analyst"
      case Researcher => "researcher"
      case Debator => "debator"
      case Trader => "trader"
      case Manager => "manager"
    }
  }

  datatype LayerConfig = LayerConfig(
    name: string,
    adjustSpeed: real,
    minWeight: real,
    maxWeight: real,
    errorMetric: string,
    volatilityTolerance: real)

  /** Every configuration of the fixed table has these properties. */
  predicate Sane(c: LayerConfig)
  {
    0.0 < c.adjustSpeed < 1.0 && 0.0 < c.minWeight <= c.maxWeight && c.volatilityTolerance > 0.0
  }

  const AnalystConfig := LayerConfig("analyst", 0.3, 0.2, 3.0, "mape", 0.8)

  /** The layer table built by the constructor, in its insertion order. */
  function Layers(): (t: seq<(string, LayerConfig)>)
    ensures Keys(t) == ["analyst", "researcher", "debator", "trader", "manager"]
    ensures forall i :: 0 <= i < |t| ==> t[i].1.name == t[i].0 && Sane(t[i].1)
  {
    [("analyst", AnalystConfig),
     ("researcher", LayerConfig("researcher", 0.5, 0.1, 2.5, "binary", 1.2)),
     ("debator", LayerConfig("debator", 0.2, 0.3, 2.0, "consistency", 0.5)),
     ("trader", LayerConfig("trader", 0.1, 0.5, 4.0, "pnl", 1.0)),
     ("manager", LayerConfig("manager", 0.4, 0.8, 2.0, "composite", 1.0))]
  }

  /** Every enum member names a layer of the table. */
  lemma EnumMembersHaveLayers(l: AgentLayer)
    ensures HasKey(Layers(), l.Value())
  {
    var t := Layers();
    match l
    case Analyst => assert t[0].0 == l.Value();
    case Researcher => assert t[1].0 == l.Value();
    case Debator => assert t[2].0 == l.Value();
    case Trader => assert t[3].0 == l.Value();
    case Manager => assert t[4].0 == l.Value();
  }

  /** `get_layer_config`: the named layer, or the analyst layer for an unknown name. */
  function GetLayerConfig(layerName: string): (c: LayerConfig)
    ensures HasKey(Layers(), layerName) ==> (layerName, c) in Layers() && c.name == layerName
    ensures !HasKey(Layers(), layerName) ==> c == AnalystConfig
    ensures Sane(c)
  {
    GetOr(Layers(), layerName, AnalystConfig)
  }

  /**
   * The metric-dependent adjustment: the inverse error for "mape", a step for
   * "binary", a linear reward for "pnl" and a damped inverse otherwise. A
   * divisor of zero is Python's ZeroDivisionError.
   */
  function Adjustment(metric: string, error: real): (r: Result<real>)
    ensures r.Err? <==> (metric == "mape" && error == -0.001)
                        || (metric != "mape" && metric != "binary" && metric != "pnl" && error == -0.1)
    ensures r.Ok? && metric == "mape" ==> r.value * (error + 0.001) == 1.0
    ensures r.Ok? && metric == "binary" ==> r.value == (if error < 0.5 then 2.0 else 0.5)
    ensures r.Ok? && metric == "pnl" ==> r.value == 3.0 - 2.0 * error
    ensures r.Ok? && metric != "mape" && metric != "binary" && metric != "pnl" ==> r.value * (error + 0.1) == 1.0
  {
    if metric == "mape" then
      if error + 0.001 == 0.0 then Err("ZeroDivisionError") else Ok(1.0 / (error + 0.001))
    else if metric == "binary" then Ok(if error < 0.5 then 2.0 else 0.5)
    else if metric == "pnl" then Ok(1.0 + (1.0 - error) * 2.0)
    else if error + 0.1 == 0.0 then Err("ZeroDivisionError") else Ok(1.0 / (error + 0.1))
  }

  /** The blend of the base weight and the adjustment at the layer's speed. */
  function Blend(c: LayerConfig, base: real, adjustment: real): real
  {
    base * (1.0 - c.adjustSpeed) + adjustment * c.adjustSpeed
  }

  /** The weight before clamping: the blend scaled by tolerance / volatility. */
  function Scaled(c: LayerConfig, blend: real, volatility: real): real
    requires volatility != 0.0 && c.volatilityTolerance != 0.0
  {
    blend * (1.0 / (volatility / c.volatilityTolerance))
  }

  lemma ScaledIsRatio(c: LayerConfig, blend: real, volatility: real)
    requires volatility != 0.0 && c.volatilityTolerance != 0.0
    ensures Scaled(c, blend, volatility) * volatility == blend * c.volatilityTolerance
  {
    var t := c.volatilityTolerance;
    assert 1.0 / (volatility / t) == t / volatility;
    assert t / volatility * volatility == t;
  }

  /**
   * `calculate_layer_adjusted_weight`: fails only on a zero divisor (the
   * adjustment's, or a zero volatility), and otherwise lies within the layer's
   * bounds.
   */
  function LayerAdjustedWeight(base: real, error: real, layerName: string, volatility: real): (r: Result<real>)
    ensures r.Err? <==> Adjustment(GetLayerConfig(layerName).errorMetric, error).Err? || volatility == 0.0
    ensures r.Ok? ==> GetLayerConfig(layerName).minWeight <= r.value <= GetLayerConfig(layerName).maxWeight
    ensures r.Ok? ==>
      var c := GetLayerConfig(layerName);
      var a := Adjustment(c.errorMetric, error).value;
      r.value == Clamp(Scaled(c, Blend(c, base, a), volatility), c.minWeight, c.maxWeight)
  {
    var c := GetLayerConfig(layerName);
    var a :- Adjustment(c.errorMetric, error);
    if volatility == 0.0 then Err("ZeroDivisionError")
    else Ok(Max(c.minWeight, Min(Scaled(c, Blend(c, base, a), volatility), c.maxWeight)))
  }

  lemma ScaledAntitone(c: LayerConfig, blend: real, v1: real, v2: real)
    requires c.volatilityTolerance > 0.0 && 0.0 < v1 <= v2 && blend >= 0.0
    ensures Scaled(c, blend, v2) <= Scaled(c, blend, v1)
  {
    var t := c.volatilityTolerance;
    assert 1.0 / (v1 / t) == t / v1;
    assert 1.0 / (v2 / t) == t / v2;
    assert t / v2 <= t / v1;
  }

  lemma ScaledNegative(c: LayerConfig, blend: real, v: real)
    requires c.volatilityTolerance > 0.0 && v > 0.0 && blend < 0.0
    ensures Scaled(c, blend, v) < 0.0
  {
    var t := c.volatilityTolerance;
    assert 1.0 / (v / t) == t / v;
  }

  lemma ClampMonotone(x: real, y: real, lo: real, hi: real)
    requires x <= y
    ensures Clamp(x, lo, hi) <= Clamp(y, lo, hi)
  {
  }

  /** For otherwise equal inputs, a higher positive volatility never gives a higher weight. */
  lemma VolatilityNeverRaisesWeight(base: real, error: real, layerName: string, v1: real, v2: real)
    requires 0.0 < v1 <= v2
    requires LayerAdjustedWeight(base, error, layerName, v1).Ok?
    ensures LayerAdjustedWeight(base, error, layerName, v2).Ok?
    ensures LayerAdjustedWeight(base, error, layerName, v2).value <= LayerAdjustedWeight(base, error, layerName, v1).value
  {
    var c := GetLayerConfig(layerName);
    var b := Blend(c, base, Adjustment(c.errorMetric, error).value);
    if b >= 0.0 {
      ScaledAntitone(c, b, v1, v2);
      ClampMonotone(Scaled(c, b, v2), Scaled(c, b, v1), c.minWeight, c.maxWeight);
    } else {
      ScaledNegative(c, b, v1);
      ScaledNegative(c, b, v2);
    }
  }

  /** The volatility example: a high volatility gives a strictly lower analyst weight than a low one. */
  lemma HighVolatilityExample()
    ensures LayerAdjustedWeight(1.0, 0.2, "analyst", 2.0).Ok?
    ensures LayerAdjustedWeight(1.0, 0.2, "analyst", 0.5).Ok?
    ensures LayerAdjustedWeight(1.0, 0.2, "analyst", 2.0).value < LayerAdjustedWeight(1.0, 0.2, "analyst", 0.5).value
  {
    var t := Layers();
    assert t[0].0 == "analyst";
    GetAt(t, 0);
    var c := AnalystConfig;
    var b := Blend(c, 1.0, 1.0 / 0.201);
    assert b > 2.0;
    ScaledIsRatio(c, b, 2.0);
    ScaledIsRatio(c, b, 0.5);
    assert Scaled(c, b, 0.5) > 3.0;
    assert Scaled(c, b, 2.0) < 1.0;
  }

  /** The error that `adjust_weight` uses: a non-positive error becomes 0.001. */
  function EffectiveError(currentError: real): (e: real)
    ensures e > 0.0
    ensures currentError > 0.0 ==> e == currentError
  {
    if currentError <= 0.0 then 0.001 else currentError
  }

  /**
   * `adjust_weight`: the base weight is 1 / (err + 0.01) for the effective error,
   * at the default volatility 1.0; with a positive error no divisor can be zero,
   * so it never fails.
   */
  function AdjustWeight(currentError: real, layerName: string): (w: real)
    ensures GetLayerConfig(layerName).minWeight <= w <= GetLayerConfig(layerName).maxWeight
  {
    var e := EffectiveError(currentError);
    LayerAdjustedWeight(1.0 / (e + 0.01), e, layerName, 1.0).value
  }

  /**
   * The weight is the layer-adjusted weight of 1 / (e + 0.01) for the effective
   * error e, which never fails: e is positive, so neither divisor is zero.
   */
  lemma AdjustWeightNeverFails(currentError: real, layerName: string)
    ensures var e := EffectiveError(currentError);
      LayerAdjustedWeight(1.0 / (e + 0.01), e, layerName, 1.0) == Ok(AdjustWeight(currentError, layerName))
  {
  }

  /** The entries of `agents_info` the model reads; a missing key takes the default. */
  datatype AgentInfo = AgentInfo(layer: Option<string>, error: Option<real>, volatility: Option<real>)

  function InfoLayer(i: AgentInfo): string { if i.layer.Some? then i.layer.value else "analyst" }
  function InfoError(i: AgentInfo): real { if i.error.Some? then i.error.value else 1.0 }
  function InfoVolatility(i: AgentInfo): real { if i.volatility.Some? then i.volatility.value else 1.0 }

  /** The suggestion for one agent: base 1.0 with the agent's layer, error and volatility. */
  function Suggestion(i: AgentInfo): Result<real>
  {
    LayerAdjustedWeight(1.0, InfoError(i), InfoLayer(i), InfoVolatility(i))
  }

  /**
   * `get_suggested_weights`: one entry per agent, in the input's order; the
   * first failing suggestion makes the whole call fail.
   */
  function SuggestedWeights(infos: seq<(string, AgentInfo)>): Result<seq<(string, real)>>
  {
    if |infos| == 0 then Ok([])
    else
      var w :- Suggestion(infos[0].1);
      var rest :- SuggestedWeights(infos[1..]);
      Ok([(infos[0].0, w)] + rest)
  }

  /** The result has exactly the input's agents, each with its own suggestion. */
  lemma {:induction false} SuggestedWeightsEntries(infos: seq<(string, AgentInfo)>)
    requires SuggestedWeights(infos).Ok?
    ensures Keys(SuggestedWeights(infos).value) == Keys(infos)
    ensures forall k :: 0 <= k < |infos| ==> Suggestion(infos[k].1) == Ok(SuggestedWeights(infos).value[k].1)
  {
    if |infos| > 0 {
      var tail := infos[1..];
      SuggestedWeightsCons(infos);
      SuggestedWeightsEntries(tail);
      var r := SuggestedWeights(infos).value;
      var rest := SuggestedWeights(tail).value;
      forall k | 0 <= k < |infos|
        ensures Keys(r)[k] == Keys(infos)[k] && Suggestion(infos[k].1) == Ok(r[k].1)
      {
        if k > 0 {
          assert r[k] == rest[k - 1] && infos[k] == tail[k - 1];
        }
      }
    }
  }

  /** The suggestions for a non-empty list that succeed are the first one's followed by the rest's. */
  lemma SuggestedWeightsCons(infos: seq<(string, AgentInfo)>)
    requires |infos| > 0 && SuggestedWeights(infos).Ok?
    ensures Suggestion(infos[0].1).Ok? && SuggestedWeights(infos[1..]).Ok?
    ensures SuggestedWeights(infos).value
      == [(infos[0].0, Suggestion(infos[0].1).value)] + SuggestedWeights(infos[1..]).value
  {
  }

  /** The call fails exactly when some agent's suggestion fails. */
  lemma {:induction false} SuggestedWeightsFails(infos: seq<(string, AgentInfo)>)
    ensures SuggestedWeights(infos).Err? <==> exists k :: 0 <= k < |infos| && Suggestion(infos[k].1).Err?
  {
    if |infos| > 0 {
      SuggestedWeightsFails(infos[1..]);
      SuggestedWeightsFirst(infos);
      FailingSuggestionFirst(infos);
    }
  }

  /** The suggestions for a non-empty list fail when its first one fails or those for the rest do. */
  lemma SuggestedWeightsFirst(infos: seq<(string, AgentInfo)>)
    requires |infos| > 0
    ensures SuggestedWeights(infos).Err? <==> Suggestion(infos[0].1).Err? || SuggestedWeights(infos[1..]).Err?
  {
  }

  /** Some agent's suggestion fails. */
  ghost predicate AnySuggestionFails(infos: seq<(string, AgentInfo)>)
  {
    exists k :: 0 <= k < |infos| && Suggestion(infos[k].1).Err?
  }

  /** Some suggestion of a non-empty list fails when its first one does or one for the rest does. */
  lemma FailingSuggestionFirst(infos: seq<(string, AgentInfo)>)
    requires |infos| > 0
    ensures AnySuggestionFails(infos) <==> Suggestion(infos[0].1).Err? || AnySuggestionFails(infos[1..])
  {
    if AnySuggestionFails(infos) {
      var k :| 0 <= k < |infos| && Suggestion(infos[k].1).Err?;
      if k > 0 {
        assert infos[1..][k - 1] == infos[k];
      }
    }
    if AnySuggestionFails(infos[1..]) {
      var k :| 0 <= k < |infos[1..]| && Suggestion(infos[1..][k].1).Err?;
      assert infos[k + 1] == infos[1..][k];
    }
  }

  /** With the default volatility every suggestion exists except at the adjustment's poles. */
  lemma SuggestionsDefined(infos: seq<(string, AgentInfo)>)
    requires forall k :: 0 <= k < |infos| ==> InfoError(infos[k].1) >= 0.0 && InfoVolatility(infos[k].1) != 0.0
    ensures SuggestedWeights(infos).Ok?
  {
    SuggestedWeightsFails(infos);
  }
}
