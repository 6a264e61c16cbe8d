/**
 * The adaptive system's simplified entry point: it owns a weight manager and a
 * layer manager, registers agents, feeds observed results back into the
 * weights and combines the agents' predictions into one weighted decision.
 */
module AdaptivePackage {
  import opened Common
  import opened AdaptiveConfig
  import opened WeightManager
  import opened LayerManager

  // -------------------------------------------------- the adjust_weight call

  /** A positional argument as Python sees it at run time. */
  datatype PyArg = PyFloat(f: real) | PyStr(s: string)

  /**
   * `LayerManager.adjust_weight(agent_name, actual_value, current_error,
   * layer_name)` with dynamically typed arguments: comparing a string error
   * with 0 raises TypeError; a layer name that is not a string is not a key of
   * the table and selects the analyst layer. The actual value is unused.
   */
  function AdjustWeightDynamic(actualValue: PyArg, currentError: PyArg, layerName: PyArg): (r: Result<real>)
    ensures currentError.PyStr? <==> r.Err?
  {
    match currentError
    case PyStr(_) => Err("TypeError: '<=' not supported between instances of 'str' and 'int'")
    case PyFloat(e) => Ok(AdjustWeight(e, if layerName.PyStr? then layerName.s else "analyst"))
  }

  /**
   * As written, `update_with_result` passes (error, layer, volatility) into the
   * (actual_value, current_error, layer_name) slots, so the layer string lands
   * in the error slot and the call always raises.
   */
  lemma AsWrittenCallRaises(currentError: real, layer: string, marketVolatility: real)
    ensures AdjustWeightDynamic(PyFloat(currentError), PyStr(layer), PyFloat(marketVolatility)).Err?
  {
  }

  /** With the arguments in their intended slots the call succeeds with the layer-adjusted weight. */
  lemma IntendedCallSucceeds(actualValue: real, currentError: real, layer: string)
    ensures AdjustWeightDynamic(PyFloat(actualValue), PyFloat(currentError), PyStr(layer)) == Ok(AdjustWeight(currentError, layer))
    ensures GetLayerConfig(layer).minWeight <= AdjustWeight(currentError, layer) <= GetLayerConfig(layer).maxWeight
  {
  }

  // ------------------------------------------------------ recording results

  /** The record after an optional prediction and then the actual value were recorded. */
  function Observed(r: AgentRecord, prediction: Option<real>, actual: real): (r': AgentRecord)
    ensures r'.name == r.name && r'.agentType == r.agentType && r'.currentWeight == r.currentWeight
    ensures r'.actuals == r.actuals + [actual]
    ensures r'.predictions == if prediction.Some? then r.predictions + [prediction.value] else r.predictions
  {
    (if prediction.Some? then r.AddPrediction(prediction.value) else r).AddActual(actual)
  }

  /**
   * Because a supplied prediction is recorded before the actual value, a record
   * whose predictions and actuals were paired gains exactly the error of that
   * prediction against that actual value.
   */
  lemma PredictionRecordedFirst(r: AgentRecord, p: real, actual: real)
    requires |r.predictions| == |r.actuals|
    ensures Observed(r, Some(p), actual).errors == r.errors + [PredictionError(p, actual)]
  {
  }

  /** Without a prediction, a paired record gains no error from the actual value alone. */
  lemma ActualAloneAddsNoError(r: AgentRecord, actual: real)
    requires |r.predictions| == |r.actuals|
    ensures Observed(r, None, actual).errors == r.errors
  {
  }

  /** The dictionary after the two recording calls; an unknown agent is ignored by both. */
  function ObserveIn(m: map<string, AgentRecord>, name: string, prediction: Option<real>, actual: real): (m': map<string, AgentRecord>)
    ensures name in m ==> m' == m[name := Observed(m[name], prediction, actual)]
    ensures name !in m ==> m' == m
  {
    if name in m then m[name := Observed(m[name], prediction, actual)] else m
  }

  /**
   * The weight the intended `adjust_weight` call computes from the current
   * records: the agent's average error over the last 10 errors (1.0 for an
   * unknown agent), with a non-positive error replaced by 0.001, adjusted for
   * the agent's layer ("analyst" for an unknown agent).
   */
  function LayerWeight(m: map<string, AgentRecord>, name: string): real
  {
    if name in m then AdjustWeight(EffectiveError(m[name].AverageError(10)), m[name].agentType)
    else AdjustWeight(EffectiveError(1.0), "analyst")
  }

  /** The weight `update_with_result` (with the intended call) computes: the layer weight after recording. */
  function ResultWeight(m: map<string, AgentRecord>, name: string, prediction: Option<real>, actual: real): real
  {
    LayerWeight(ObserveIn(m, name, prediction, actual), name)
  }

  /** That weight lies within the bounds of the agent's layer. */
  lemma ResultWeightBounds(m: map<string, AgentRecord>, name: string, prediction: Option<real>, actual: real)
    ensures var layer := if name in m then m[name].agentType else "analyst";
      GetLayerConfig(layer).minWeight <= ResultWeight(m, name, prediction, actual) <= GetLayerConfig(layer).maxWeight
  {
  }

  /** For an agent without errors yet, the weight is the layer-adjusted weight for an error of 1.0. */
  lemma ResultWeightFirstError(m: map<string, AgentRecord>, name: string, actual: real)
    requires name in m && |m[name].errors| == 0 && |m[name].predictions| != |m[name].actuals| + 1
    ensures ResultWeight(m, name, None, actual) == AdjustWeight(1.0, m[name].agentType)
  {
  }

  // ------------------------------------------------------- weighted decision

  /** The value `get_weighted_decision` returns. */
  datatype Decision = Decision(weightedDecision: real, weights: seq<(string, real)>, rawPredictions: seq<(string, real)>)

  /** Σ prediction · normalised weight, pairing the i-th prediction with the i-th weight. */
  function Dot(preds: seq<(string, real)>, ws: seq<(string, real)>): real
    requires |ws| == |preds|
  {
    if |preds| == 0 then 0.0 else preds[0].1 * ws[0].1 + Dot(preds[1..], ws[1..])
  }

  /** Each prediction's agent paired with its raw weight. */
  function Pairs(preds: seq<(string, real)>, raw: seq<real>): (ws: seq<(string, real)>)
    requires |raw| == |preds|
    ensures |ws| == |preds|
    ensures forall i :: 0 <= i < |ws| ==> ws[i] == (preds[i].0, raw[i])
  {
    seq(|preds|, i requires 0 <= i < |preds| => (preds[i].0, raw[i]))
  }

  lemma PairsValues(preds: seq<(string, real)>, raw: seq<real>)
    requires |raw| == |preds|
    ensures Values(Pairs(preds, raw)) == raw
  {
    assert forall i :: 0 <= i < |raw| ==> Values(Pairs(preds, raw))[i] == raw[i];
  }

  /**
   * The decision for predictions whose agents have the given raw weights: the
   * weights normalised as in `get_weighted_decision` (by the total when it is
   * positive, else uniformly) and the prediction sum weighted by them.
   */
  function Combine(preds: seq<(string, real)>, raw: seq<real>): (d: Decision)
    requires |raw| == |preds|
    ensures Keys(d.weights) == Keys(preds) && d.rawPredictions == preds
  {
    var normalized := Normalize(Pairs(preds, raw), true);
    assert Keys(Pairs(preds, raw)) == Keys(preds);
    Decision(Dot(preds, normalized), normalized, preds)
  }

  /** With a positive total the weights sum to 1. */
  lemma CombinePositiveTotal(preds: seq<(string, real)>, raw: seq<real>)
    requires |raw| == |preds| && Sum(raw) > 0.0
    ensures Sum(Values(Combine(preds, raw).weights)) == 1.0
  {
    PairsValues(preds, raw);
    NormalizeSumsToOne(Pairs(preds, raw), true);
  }

  /** With a positive total each weight is the raw weight's share of the total. */
  lemma CombineProportional(preds: seq<(string, real)>, raw: seq<real>)
    requires |raw| == |preds| && Sum(raw) > 0.0
    ensures forall i :: 0 <= i < |preds| ==> Combine(preds, raw).weights[i].1 == raw[i] / Sum(raw)
  {
    PairsValues(preds, raw);
  }

  /** With a total that is not positive (all weights zero, say) every agent gets 1/n. */
  lemma CombineUniform(preds: seq<(string, real)>, raw: seq<real>)
    requires |raw| == |preds| && Sum(raw) <= 0.0
    ensures forall i :: 0 <= i < |preds| ==> Combine(preds, raw).weights[i].1 == 1.0 / |preds| as real
    ensures |preds| > 0 ==> Sum(Values(Combine(preds, raw).weights)) == 1.0
  {
    PairsValues(preds, raw);
    NormalizeUniform(Pairs(preds, raw), true);
  }

  /** No predictions: decision 0 and no weights. */
  lemma CombineEmpty()
    ensures Combine([], []) == Decision(0.0, [], [])
  {
  }

  /** Weights 2 : 1 with predictions 1.2 and 1.4 give (2·1.2 + 1.4) / 3. */
  lemma CombineExample()
    ensures Combine([("a", 1.2), ("b", 1.4)], [2.0, 1.0]).weightedDecision == 3.8 / 3.0
  {
    var preds := [("a", 1.2), ("b", 1.4)];
    var raw := [2.0, 1.0];
    PairsValues(preds, raw);
    assert Sum(raw) == 3.0 by {
      assert raw[1..] == [1.0];
      assert Sum([1.0]) == 1.0;
    }
    CombineProportional(preds, raw);
    var n := Combine(preds, raw).weights;
    assert n[0].1 == 2.0 / 3.0 && n[1].1 == 1.0 / 3.0;
    assert Dot(preds[1..], n[1..]) == 1.4 * n[1].1 by {
      assert Dot(preds[1..][1..], n[1..][1..]) == 0.0;
    }
  }

  // ------------------------------------------------------- runs of calls

  /**
   * The agents after `register_agent` for each name and type of a list in
   * turn: a name not yet known gets a fresh record with the type of its first
   * entry; known names are left as they are.
   */
  function Registered(m: map<string, AgentRecord>, list: seq<(string, string)>, initialWeight: real): (m': map<string, AgentRecord>)
    ensures forall n :: n in m' <==> n in m || HasKey(list, n)
    ensures forall n :: n in m ==> m'[n] == m[n]
    ensures forall n :: n !in m && HasKey(list, n) ==> m'[n] == FreshRecord(n, Get(list, n).value, initialWeight)
    decreases |list|
  {
    if |list| == 0 then m
    else
      var front := list[..|list| - 1];
      var e := list[|list| - 1];
      var mf := Registered(m, front, initialWeight);
      LastSplit(list);
      assert forall n :: HasKey(list, n) <==> HasKey(front, n) || n == e.0 by {
        forall n ensures HasKey(list, n) <==> HasKey(front, n) || n == e.0 {
          HasKeyConcat(front, [e], n);
          HasKeySingle([e], n);
        }
      }
      assert forall n :: Get(list, n) == if HasKey(front, n) then Get(front, n) else Get([e], n) by {
        forall n ensures Get(list, n) == if HasKey(front, n) then Get(front, n) else Get([e], n) {
          GetConcat(front, [e], n);
        }
      }
      if e.0 in mf then mf else mf[e.0 := FreshRecord(e.0, e.1, initialWeight)]
  }

  /** The agents after `record_prediction` for each prediction in turn: an unknown name changes nothing. */
  function RecordedKnown(agents: map<string, AgentRecord>, ps: seq<(string, real)>): (m: map<string, AgentRecord>)
    ensures m.Keys == agents.Keys
    decreases |ps|
  {
    if |ps| == 0 then agents
    else
      var m := RecordedKnown(agents, ps[..|ps| - 1]);
      var e := ps[|ps| - 1];
      if e.0 in m then m[e.0 := m[e.0].AddPrediction(e.1)] else m
  }

  /** Recording predictions changes no weight. */
  lemma {:induction false} RecordedKeepsWeights(agents: map<string, AgentRecord>, ps: seq<(string, real)>, n: string)
    requires n in agents
    ensures RecordedKnown(agents, ps)[n].currentWeight == agents[n].currentWeight
    decreases |ps|
  {
    if |ps| > 0 {
      RecordedKeepsWeights(agents, ps[..|ps| - 1], n);
    }
  }

  /** With distinct names, a known agent gains exactly its own prediction, and an agent without one is unchanged. */
  lemma {:induction false} RecordedRead(agents: map<string, AgentRecord>, ps: seq<(string, real)>, n: string)
    requires Unique(Keys(ps)) && n in agents
    ensures RecordedKnown(agents, ps)[n] == match Get(ps, n)
      case Some(v) => agents[n].AddPrediction(v)
      case None => agents[n]
    decreases |ps|
  {
    if |ps| > 0 {
      var front := ps[..|ps| - 1];
      var e := ps[|ps| - 1];
      LastSplit(ps);
      forall a, b | 0 <= a < b < |front| ensures Keys(front)[a] != Keys(front)[b] {
        assert Keys(ps)[a] != Keys(ps)[b];
      }
      assert !HasKey(front, e.0) by {
        forall a | 0 <= a < |front| ensures front[a].0 != e.0 {
          assert Keys(ps)[a] != Keys(ps)[|ps| - 1];
        }
      }
      RecordedRead(agents, front, n);
      GetConcat(front, [e], n);
      HasKeySingle([e], n);
    }
  }

  /**
   * The agents and the update history after `update_with_result` (with the
   * intended `adjust_weight` call) for one agent and no prediction; an
   * unknown agent changes nothing.
   */
  function ResultState(c: Config, st: (map<string, AgentRecord>, seq<HistoryEntry>), name: string, actual: real)
    : (r: (map<string, AgentRecord>, seq<HistoryEntry>))
    ensures r.0.Keys == st.0.Keys
    ensures name in st.0 ==> |r.1| == |st.1| + 1 && r.1[..|st.1|] == st.1 && r.1[|st.1|].agent == name
    ensures name !in st.0 ==> r == st
  {
    if name in st.0 then
      var rec := Observed(st.0[name], None, actual);
      var w := ResultWeight(st.0, name, None, actual);
      (ObserveIn(st.0, name, None, actual)[name := Updated(c, rec, Some(w))], st.1 + [UpdateEntry(c, name, rec, Some(w))])
    else st
  }

  /** The agents and history after `update_with_result` for each name in turn. */
  function UpdatedAll(c: Config, st: (map<string, AgentRecord>, seq<HistoryEntry>), names: seq<string>, actual: real)
    : (r: (map<string, AgentRecord>, seq<HistoryEntry>))
    ensures r.0.Keys == st.0.Keys
    decreases |names|
  {
    if |names| == 0 then st
    else ResultState(c, UpdatedAll(c, st, names[..|names| - 1], actual), names[|names| - 1], actual)
  }

  /** One more name: its update follows those of the earlier names. */
  lemma UpdatedAllSnoc(c: Config, st: (map<string, AgentRecord>, seq<HistoryEntry>), names: seq<string>, x: string, actual: real)
    ensures UpdatedAll(c, st, names + [x], actual) == ResultState(c, UpdatedAll(c, st, names, actual), x, actual)
  {
    assert (names + [x])[..|names|] == names;
  }

  /** Updating known agents logs exactly one history entry per name, in order, after the old history. */
  lemma {:induction false} UpdatedAllKnown(c: Config, st: (map<string, AgentRecord>, seq<HistoryEntry>), names: seq<string>, actual: real)
    requires forall i :: 0 <= i < |names| ==> names[i] in st.0
    ensures |UpdatedAll(c, st, names, actual).1| == |st.1| + |names|
    ensures UpdatedAll(c, st, names, actual).1[..|st.1|] == st.1
    ensures forall i :: 0 <= i < |names| ==> UpdatedAll(c, st, names, actual).1[|st.1| + i].agent == names[i]
    decreases |names|
  {
    if |names| > 0 {
      var front := names[..|names| - 1];
      var last := names[|names| - 1];
      UpdatedAllKnown(c, st, front, actual);
      var mid := UpdatedAll(c, st, front, actual);
      assert last in mid.0;
      var h := ResultState(c, mid, last, actual).1;
      assert h == UpdatedAll(c, st, names, actual).1;
      assert |h| == |mid.1| + 1 && h[..|mid.1|] == mid.1 && h[|mid.1|].agent == last;
      forall i | 0 <= i < |names| ensures h[|st.1| + i].agent == names[i] {
        if i < |front| {
          assert h[|st.1| + i] == h[..|mid.1|][|st.1| + i];
          assert front[i] == names[i];
        }
      }
      PrefixTrans(st.1, mid.1, h);
    }
  }

  // ------------------------------------------------------------------ system

  class AdaptiveSystem {
    const config: Config
    const weightManager: AdaptiveWeightManager

    ghost predicate Valid()
      reads this, weightManager
    {
      weightManager.Valid() && weightManager.config == config
    }

    /** `AdaptiveSystem(config)`: the given configuration, or the defaults when none is given. */
    constructor (config: Option<Config>)
      ensures Valid() && fresh(weightManager)
      ensures this.config == if config.Some? then config.value else Default()
      ensures weightManager.names == [] && weightManager.agents == map[] && weightManager.history == []
    {
      var c := if config.Some? then config.value else Default();
      this.config := c;
      weightManager := new AdaptiveWeightManager(c);
    }

    /** `register_agent`: registers with the weight manager and returns the system itself. */
    method RegisterAgent(name: string, layer: string) returns (self: AdaptiveSystem)
      requires Valid()
      modifies weightManager
      ensures Valid() && self == this
      ensures name in old(weightManager.agents) ==>
        weightManager.names == old(weightManager.names) && weightManager.agents == old(weightManager.agents)
      ensures name !in old(weightManager.agents) ==>
        weightManager.names == old(weightManager.names) + [name]
        && weightManager.agents == old(weightManager.agents)[name := FreshRecord(name, layer, config.initialWeight)]
      ensures weightManager.history == old(weightManager.history)
    {
      weightManager.RegisterAgent(name, layer);
      self := this;
    }

    /** `register_agent` for each name and type of a list in turn, the loop its callers write. */
    method RegisterEach(list: seq<(string, string)>)
      requires Valid()
      modifies weightManager
      ensures Valid()
      ensures weightManager.agents == Registered(old(weightManager.agents), list, config.initialWeight)
      ensures weightManager.history == old(weightManager.history)
    {
      var i := 0;
      while i < |list|
        invariant 0 <= i <= |list|
        invariant Valid()
        invariant weightManager.agents == Registered(old(weightManager.agents), list[..i], config.initialWeight)
        invariant weightManager.history == old(weightManager.history)
      {
        assert list[..i + 1][..i] == list[..i];
        var _ := RegisterAgent(list[i].0, list[i].1);
        i := i + 1;
      }
      assert list[..i] == list;
    }

    /** `record_prediction`: delegated to the weight manager. */
    method RecordPrediction(agentName: string, prediction: real) returns (ok: bool)
      requires Valid()
      modifies weightManager
      ensures Valid()
      ensures ok <==> agentName in old(weightManager.agents)
      ensures weightManager.agents ==
        if ok then old(weightManager.agents)[agentName := old(weightManager.agents)[agentName].AddPrediction(prediction)]
        else old(weightManager.agents)
      ensures weightManager.names == old(weightManager.names) && weightManager.history == old(weightManager.history)
    {
      ok := weightManager.RecordPrediction(agentName, prediction);
    }

    /** `record_prediction` for each prediction in turn, the loop its callers write. */
    method RecordEach(predictions: seq<(string, real)>)
      requires Valid()
      modifies weightManager
      ensures Valid()
      ensures weightManager.agents == RecordedKnown(old(weightManager.agents), predictions)
      ensures weightManager.names == old(weightManager.names) && weightManager.history == old(weightManager.history)
    {
      var i := 0;
      while i < |predictions|
        invariant 0 <= i <= |predictions|
        invariant Valid()
        invariant weightManager.agents == RecordedKnown(old(weightManager.agents), predictions[..i])
        invariant weightManager.names == old(weightManager.names) && weightManager.history == old(weightManager.history)
      {
        assert predictions[..i + 1][..i] == predictions[..i];
        var _ := RecordPrediction(predictions[i].0, predictions[i].1);
        i := i + 1;
      }
      assert predictions[..i] == predictions;
    }

    /** The two recording calls `update_with_result` starts with: the prediction first, if given. */
    method RecordResult(agentName: string, actualValue: real, prediction: Option<real>)
      requires Valid()
      modifies weightManager
      ensures Valid()
      ensures weightManager.agents == ObserveIn(old(weightManager.agents), agentName, prediction, actualValue)
      ensures weightManager.names == old(weightManager.names) && weightManager.history == old(weightManager.history)
    {
      if prediction.Some? {
        var _ := weightManager.RecordPrediction(agentName, prediction.value);
      }
      var _ := weightManager.RecordActual(agentName, actualValue);
    }

    /**
     * `update_with_result` as written: after both recordings, the call into the
     * layer manager raises TypeError, so no weight is updated and nothing is
     * returned.
     */
    method UpdateWithResultAsWritten(agentName: string, actualValue: real, prediction: Option<real>,
                                     marketVolatility: real) returns (r: Result<real>)
      requires Valid()
      modifies weightManager
      ensures Valid() && r.Err?
      ensures weightManager.agents == ObserveIn(old(weightManager.agents), agentName, prediction, actualValue)
      ensures weightManager.names == old(weightManager.names) && weightManager.history == old(weightManager.history)
    {
      RecordResult(agentName, actualValue, prediction);
      var currentError := weightManager.GetAgentError(agentName);
      var layer := weightManager.GetAgentLayer(agentName);
      currentError := EffectiveError(currentError);
      // adjust_weight raises here, so the update_weight call after it is never reached
      r := AdjustWeightDynamic(PyFloat(currentError), PyStr(layer), PyFloat(marketVolatility));
    }

    /**
     * The second half of `update_with_result` with `adjust_weight` called as
     * intended: read the agent's average error and layer, compute the
     * layer-adjusted weight and store it (an unknown agent changes nothing).
     */
    method StoreLayerWeight(agentName: string) returns (w: real)
      requires Valid()
      modifies weightManager
      ensures Valid()
      ensures w == LayerWeight(old(weightManager.agents), agentName)
      ensures agentName !in old(weightManager.agents) ==>
        weightManager.agents == old(weightManager.agents) && weightManager.history == old(weightManager.history)
      ensures agentName in old(weightManager.agents) ==>
        var rec := old(weightManager.agents)[agentName];
        weightManager.agents == old(weightManager.agents)[agentName := Updated(config, rec, Some(w))]
        && weightManager.history == old(weightManager.history) + [UpdateEntry(config, agentName, rec, Some(w))]
      ensures weightManager.names == old(weightManager.names)
    {
      var currentError := weightManager.GetAgentError(agentName);
      var layer := weightManager.GetAgentLayer(agentName);
      currentError := EffectiveError(currentError);
      w := AdjustWeight(currentError, layer);
      var _ := weightManager.UpdateWeight(agentName, Some(w));
    }

    /** `update_with_result` with `adjust_weight` called as intended: record, then store the layer weight. */
    method UpdateWithResult(agentName: string, actualValue: real, prediction: Option<real>,
                            marketVolatility: real) returns (w: real)
      requires Valid()
      modifies weightManager
      ensures Valid()
      ensures w == ResultWeight(old(weightManager.agents), agentName, prediction, actualValue)
      ensures agentName !in old(weightManager.agents) ==>
        weightManager.agents == old(weightManager.agents) && weightManager.history == old(weightManager.history)
      ensures agentName in old(weightManager.agents) ==>
        var rec := Observed(old(weightManager.agents)[agentName], prediction, actualValue);
        weightManager.agents == ObserveIn(old(weightManager.agents), agentName, prediction, actualValue)[agentName := Updated(config, rec, Some(w))]
        && weightManager.history == old(weightManager.history) + [UpdateEntry(config, agentName, rec, Some(w))]
      ensures prediction.None? ==>
        (weightManager.agents, weightManager.history) ==
          ResultState(config, (old(weightManager.agents), old(weightManager.history)), agentName, actualValue)
      ensures weightManager.names == old(weightManager.names)
    {
      RecordResult(agentName, actualValue, prediction);
      w := StoreLayerWeight(agentName);
    }

    /** `update_with_result` with no prediction for each name in turn, the loop its callers write. */
    method UpdateEach(names: seq<string>, actualValue: real)
      requires Valid()
      modifies weightManager
      ensures Valid()
      ensures (weightManager.agents, weightManager.history) ==
        UpdatedAll(config, (old(weightManager.agents), old(weightManager.history)), names, actualValue)
      ensures weightManager.names == old(weightManager.names)
    {
      ghost var start := (weightManager.agents, weightManager.history);
      var i := 0;
      while i < |names|
        invariant 0 <= i <= |names|
        invariant Valid()
        invariant (weightManager.agents, weightManager.history) == UpdatedAll(config, start, names[..i], actualValue)
        invariant weightManager.names == old(weightManager.names)
      {
        assert names[..i + 1][..i] == names[..i];
        var _ := UpdateWithResult(names[i], actualValue, None, 1.0);
        i := i + 1;
      }
      assert names[..i] == names;
    }

    /** Every predicting agent's weight from the manager, 1.0 for an unregistered one. */
    function RawWeights(predictions: seq<(string, real)>): (raw: seq<real>)
      reads this, weightManager
      ensures |raw| == |predictions|
      ensures forall i :: 0 <= i < |raw| ==> raw[i] == weightManager.GetWeight(predictions[i].0)
    {
      seq(|predictions|, i requires 0 <= i < |predictions| reads this, weightManager =>
        weightManager.GetWeight(predictions[i].0))
    }

    /**
     * `get_weighted_decision`: the raw weights normalised (each weight's share
     * of a positive total, else 1/n each, so they always sum to 1 when there is
     * a prediction) and the predictions summed with those weights.
     */
    function WeightedDecision(predictions: seq<(string, real)>): (d: Decision)
      reads this, weightManager
      ensures Keys(d.weights) == Keys(predictions) && d.rawPredictions == predictions
      ensures d.weightedDecision == Dot(predictions, d.weights)
      ensures |predictions| > 0 ==> Sum(Values(d.weights)) == 1.0
      ensures var raw := RawWeights(predictions);
        Sum(raw) > 0.0 ==> forall i :: 0 <= i < |predictions| ==> d.weights[i].1 == raw[i] / Sum(raw)
      ensures Sum(RawWeights(predictions)) <= 0.0 ==>
        forall i :: 0 <= i < |predictions| ==> d.weights[i].1 == 1.0 / |predictions| as real
    {
      var raw := RawWeights(predictions);
      if Sum(raw) > 0.0 then
        CombinePositiveTotal(predictions, raw);
        CombineProportional(predictions, raw);
        Combine(predictions, raw)
      else
        CombineUniform(predictions, raw);
        Combine(predictions, raw)
    }
  }
}
