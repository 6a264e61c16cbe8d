/**
 * The full integration system: the four analysts are registered in a weight
 * manager under a layer each, and each analyst's weight is recomputed from its
 * recent error, a per-analyst market-regime adjustment table and the regime
 * detector's confidence, clamped to [0.1, 3.0].
 */
module IntegratedSystem {
  import opened Common
  import opened AdaptiveConfig
  import opened WeightManager

  /** The analysts `_register_analysts` registers, in order. */
  const AnalystNames: seq<string> := ["macro_analyst", "news_analyst", "technical_analyst", "quantitative_analyst"]

  /** The layer an analyst is registered under (the last branch is the quantitative analyst's). */
  function LayerFor(name: string): string
  {
    if name == "macro_analyst" then "strategic"
    else if name == "technical_analyst" then "tactical"
    else if name == "news_analyst" then "operational"
    else "strategic"
  }

  lemma AnalystLayers()
    ensures LayerFor("macro_analyst") == "strategic" && LayerFor("technical_analyst") == "tactical"
    ensures LayerFor("news_analyst") == "operational" && LayerFor("quantitative_analyst") == "strategic"
  {
  }

  /**
   * `_register_analysts`: every analyst ends up registered; one that was new
   * gets a fresh record typed with its layer, and everything already there is
   * kept as it was.
   */
  method RegisterAnalysts(wm: AdaptiveWeightManager)
    requires wm.Valid()
    modifies wm`names, wm`agents
    ensures wm.Valid()
    ensures forall n :: n in wm.agents <==> n in old(wm.agents) || n in AnalystNames
    ensures forall n :: n in old(wm.agents) ==> wm.agents[n] == old(wm.agents)[n]
    ensures forall n :: n in AnalystNames && n !in old(wm.agents) ==>
      wm.agents[n] == FreshRecord(n, LayerFor(n), wm.config.initialWeight)
    ensures |old(wm.names)| <= |wm.names| && wm.names[..|old(wm.names)|] == old(wm.names)
  {
    var i := 0;
    while i < |AnalystNames|
      invariant 0 <= i <= |AnalystNames|
      invariant wm.Valid() && wm.config == old(wm.config)
      invariant forall n :: n in wm.agents <==> n in old(wm.agents) || n in AnalystNames[..i]
      invariant forall n :: n in old(wm.agents) ==> wm.agents[n] == old(wm.agents)[n]
      invariant forall n :: n in AnalystNames[..i] && n !in old(wm.agents) ==>
        wm.agents[n] == FreshRecord(n, LayerFor(n), wm.config.initialWeight)
      invariant |old(wm.names)| <= |wm.names| && wm.names[..|old(wm.names)|] == old(wm.names)
    {
      var name := AnalystNames[i];
      ghost var before := wm.names;
      PrefixSnoc(AnalystNames, i);
      wm.RegisterAgent(name, LayerFor(name));
      if |wm.names| > |before| {
        assert wm.names[..|before|] == before;
      }
      PrefixTrans(old(wm.names), before, wm.names);
      i := i + 1;
    }
    assert AnalystNames[..i] == AnalystNames;
  }

  /** The regimes `_get_regime_adjustment`'s table lists for an analyst (besides "default"). */
  function ListedRegimes(analystName: string): seq<string>
  {
    if analystName == "macro_analyst" then ["macro_event", "trending_bull", "trending_bear", "crisis"]
    else if analystName == "news_analyst" then ["news_driven", "high_volatility", "crisis"]
    else if analystName == "technical_analyst" then ["trending_bull", "trending_bear", "breakout_up", "breakout_down", "ranging"]
    else if analystName == "quantitative_analyst" then ["high_volatility", "quant_shock", "crisis", "ranging"]
    else []
  }

  /**
   * `_get_regime_adjustment`: the table entry for the analyst and regime,
   * else the analyst's default 1.0 (an unknown analyst has only the default).
   */
  function RegimeAdjustment(analystName: string, regime: string): real
  {
    if analystName == "macro_analyst" then
      if regime == "macro_event" then 1.8
      else if regime == "trending_bull" || regime == "trending_bear" then 1.3
      else if regime == "crisis" then 1.5
      else 1.0
    else if analystName == "news_analyst" then
      if regime == "news_driven" then 1.8
      else if regime == "high_volatility" then 1.4
      else if regime == "crisis" then 1.6
      else 1.0
    else if analystName == "technical_analyst" then
      if regime == "trending_bull" || regime == "trending_bear" then 1.6
      else if regime == "breakout_up" || regime == "breakout_down" then 1.7
      else if regime == "ranging" then 1.4
      else 1.0
    else if analystName == "quantitative_analyst" then
      if regime == "high_volatility" then 1.6
      else if regime == "quant_shock" then 1.8
      else if regime == "crisis" then 1.5
      else if regime == "ranging" then 1.3
      else 1.0
    else 1.0
  }

  /** A regime adjustment never lowers a weight. */
  lemma RegimeAdjustmentAtLeastOne(analystName: string, regime: string)
    ensures RegimeAdjustment(analystName, regime) >= 1.0
  {
  }

  /**
   * The adjustment raises a weight exactly for the regimes the analyst's
   * table lists; every other regime, and every regime of an unknown analyst,
   * gets the default 1.0.
   */
  lemma RegimeAdjustmentMeaning(analystName: string, regime: string)
    ensures RegimeAdjustment(analystName, regime) > 1.0 <==> regime in ListedRegimes(analystName)
    ensures RegimeAdjustment(analystName, regime) <= 1.0 ==> RegimeAdjustment(analystName, regime) == 1.0
    ensures analystName !in AnalystNames ==> RegimeAdjustment(analystName, regime) == 1.0
  {
  }

  lemma RegimeAdjustmentExamples()
    ensures RegimeAdjustment("technical_analyst", "breakout_up") == 1.7
    ensures RegimeAdjustment("news_analyst", "news_driven") == 1.8
    ensures RegimeAdjustment("macro_analyst", "ranging") == 1.0
    ensures RegimeAdjustment("risk_analyst", "crisis") == 1.0
  {
  }

  /** The weight before clamping: 1 / (error + 0.01), times the regime adjustment and 0.5 + confidence. */
  function RawAdaptiveWeight(analystName: string, error: real, regime: string, regimeConfidence: real): real
    requires error + 0.01 != 0.0
  {
    1.0 / (error + 0.01) * RegimeAdjustment(analystName, regime) * (0.5 + regimeConfidence)
  }

  /**
   * `_calculate_adaptive_weight`: the raw weight clamped to [0.1, 3.0];
   * ZeroDivisionError for an error of exactly -0.01.
   */
  function AdaptiveWeight(analystName: string, error: real, regime: string, regimeConfidence: real): (r: Result<real>)
    ensures r.Err? <==> error + 0.01 == 0.0
    ensures r.Ok? ==> 0.1 <= r.value <= 3.0
    ensures r.Ok? ==> r.value == Clamp(RawAdaptiveWeight(analystName, error, regime, regimeConfidence), 0.1, 3.0)
  {
    if error + 0.01 == 0.0 then Err("ZeroDivisionError: float division by zero")
    else Ok(Max(0.1, Min(RawAdaptiveWeight(analystName, error, regime, regimeConfidence), 3.0)))
  }

  /** Inside the bounds the weight is the raw formula itself. */
  lemma AdaptiveWeightUnclamped(analystName: string, error: real, regime: string, regimeConfidence: real)
    requires error + 0.01 != 0.0
    requires 0.1 <= RawAdaptiveWeight(analystName, error, regime, regimeConfidence) <= 3.0
    ensures AdaptiveWeight(analystName, error, regime, regimeConfidence) ==
      Ok(RawAdaptiveWeight(analystName, error, regime, regimeConfidence))
  {
  }

  /**
   * A smaller (non-negative) error never gives a smaller weight, when the
   * confidence factor 0.5 + confidence is not negative.
   */
  lemma AdaptiveWeightMonotone(analystName: string, e1: real, e2: real, regime: string, regimeConfidence: real)
    requires 0.0 <= e1 <= e2 && regimeConfidence >= -0.5
    ensures AdaptiveWeight(analystName, e1, regime, regimeConfidence).value >= AdaptiveWeight(analystName, e2, regime, regimeConfidence).value
  {
    var adj := RegimeAdjustment(analystName, regime);
    var c := 0.5 + regimeConfidence;
    RegimeAdjustmentAtLeastOne(analystName, regime);
    ClampedWeightMonotone(e1, e2, adj, c);
    assert RawAdaptiveWeight(analystName, e1, regime, regimeConfidence) == 1.0 / (e1 + 0.01) * adj * c;
    assert RawAdaptiveWeight(analystName, e2, regime, regimeConfidence) == 1.0 / (e2 + 0.01) * adj * c;
  }

  lemma ClampedWeightMonotone(e1: real, e2: real, adj: real, c: real)
    requires 0.0 <= e1 <= e2 && adj >= 0.0 && c >= 0.0
    ensures Clamp(1.0 / (e1 + 0.01) * adj * c, 0.1, 3.0) >= Clamp(1.0 / (e2 + 0.01) * adj * c, 0.1, 3.0)
  {
    var b1 := 1.0 / (e1 + 0.01);
    var b2 := 1.0 / (e2 + 0.01);
    ReciprocalAntitone(e1 + 0.01, e2 + 0.01);
    ScaleMonotone(b2, b1, adj);
    ScaleMonotone(b2 * adj, b1 * adj, c);
  }

  /** Agent n's weight is its adaptive weight, computed from its errors in `before`. */
  predicate AdaptedFrom(before: map<string, AgentRecord>, after: map<string, AgentRecord>, n: string, regime: string, regimeConfidence: real)
  {
    n in before && n in after
    && var e := AverageOf(before[n].errors, 10);
       AdaptiveWeight(n, e, regime, regimeConfidence).Ok?
       && after[n].currentWeight == AdaptiveWeight(n, e, regime, regimeConfidence).value
  }

  /** Only n's errors in `before` and n's record in `after` matter. */
  lemma AdaptedFromFrame(o1: map<string, AgentRecord>, o2: map<string, AgentRecord>, a: map<string, AgentRecord>, b: map<string, AgentRecord>, n: string, regime: string, regimeConfidence: real)
    requires AdaptedFrom(o1, a, n, regime, regimeConfidence)
    requires n in o2 && o2[n].errors == o1[n].errors && n in b && b[n] == a[n]
    ensures AdaptedFrom(o2, b, n, regime, regimeConfidence)
  {
  }

  /** One step of the weight loop extends "adapted" from the first i names to the first i + 1. */
  lemma AdaptStep(orig: map<string, AgentRecord>, before: map<string, AgentRecord>, after: map<string, AgentRecord>,
                  names: seq<string>, i: nat, regime: string, regimeConfidence: real)
    requires i < |names| && Unique(names)
    requires forall k :: 0 <= k < i ==> AdaptedFrom(orig, before, names[k], regime, regimeConfidence)
    requires forall n :: n in after <==> n in before
    requires forall n :: n in after && n != names[i] ==> after[n] == before[n]
    requires AdaptedFrom(before, after, names[i], regime, regimeConfidence)
    requires names[i] in orig && orig[names[i]].errors == before[names[i]].errors
    ensures forall k :: 0 <= k < i + 1 ==> AdaptedFrom(orig, after, names[k], regime, regimeConfidence)
  {
    forall k | 0 <= k < i + 1
      ensures AdaptedFrom(orig, after, names[k], regime, regimeConfidence)
    {
      if k == i {
        AdaptedFromFrame(before, orig, after, after, names[k], regime, regimeConfidence);
      } else {
        assert names[k] != names[i];
        AdaptedFromFrame(orig, orig, before, after, names[k], regime, regimeConfidence);
      }
    }
  }

  lemma AdaptedInRange(before: map<string, AgentRecord>, after: map<string, AgentRecord>, n: string, regime: string, regimeConfidence: real)
    requires AdaptedFrom(before, after, n, regime, regimeConfidence)
    ensures 0.1 <= after[n].currentWeight <= 3.0
  {
  }

  /** One analyst's step: its weight becomes its adaptive weight; its errors and every other record stay. */
  method AdaptOne(wm: AdaptiveWeightManager, name: string, regime: string, regimeConfidence: real)
    requires wm.Valid() && name in wm.agents
    modifies wm`agents, wm`history
    ensures wm.Valid()
    ensures forall n :: n in wm.agents <==> n in old(wm.agents)
    ensures forall n :: n in wm.agents && n != name ==> wm.agents[n] == old(wm.agents)[n]
    ensures wm.agents[name].errors == old(wm.agents)[name].errors
    ensures AdaptedFrom(old(wm.agents), wm.agents, name, regime, regimeConfidence)
  {
    var error := wm.GetAgentError(name);
    var w := AdaptiveWeight(name, error, regime, regimeConfidence);
    var ok := wm.UpdateWeight(name, Some(w.value));
  }

  /**
   * The weight step of `execute_analysis`: every registered analyst's weight
   * is set, through `update_weight`, to its adaptive weight for the detected
   * regime and confidence, computed from its own recent error, so it lies in
   * [0.1, 3.0].
   */
  method AdaptWeights(wm: AdaptiveWeightManager, regime: string, regimeConfidence: real)
    requires wm.Valid()
    modifies wm`agents, wm`history
    ensures wm.Valid()
    ensures forall n :: n in wm.agents <==> n in old(wm.agents)
    ensures forall n :: n in wm.agents ==> AdaptedFrom(old(wm.agents), wm.agents, n, regime, regimeConfidence)
    ensures forall n :: n in wm.agents ==> 0.1 <= wm.agents[n].currentWeight <= 3.0
  {
    var i := 0;
    while i < |wm.names|
      invariant 0 <= i <= |wm.names|
      invariant wm.Valid() && wm.names == old(wm.names)
      invariant forall n :: n in wm.agents <==> n in old(wm.agents)
      invariant forall n :: n in wm.agents ==> wm.agents[n].errors == old(wm.agents)[n].errors
      invariant forall k :: 0 <= k < i ==> AdaptedFrom(old(wm.agents), wm.agents, wm.names[k], regime, regimeConfidence)
    {
      var name := wm.names[i];
      ghost var before := wm.agents;
      AdaptOne(wm, name, regime, regimeConfidence);
      AdaptStep(old(wm.agents), before, wm.agents, wm.names, i, regime, regimeConfidence);
      i := i + 1;
    }
    forall n | n in wm.agents
      ensures AdaptedFrom(old(wm.agents), wm.agents, n, regime, regimeConfidence)
    {
      var k :| 0 <= k < |wm.names| && wm.names[k] == n;
    }
    forall n | n in wm.agents
      ensures 0.1 <= wm.agents[n].currentWeight <= 3.0
    {
      AdaptedInRange(old(wm.agents), wm.agents, n, regime, regimeConfidence);
    }
  }
}
