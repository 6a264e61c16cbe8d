/**
 * The basic weight manager: one record per agent holding its predictions, the
 * observed values, the relative errors and the weight history, and a manager
 * that registers agents, records observations, recomputes weights from the
 * recent error and normalises them.
 */
module WeightManager {
  import opened Common
  import opened AdaptiveConfig

  // ------------------------------------------------------------------ errors

  /** The relative error of one prediction: |p - a| / |a|, or |p| when a is 0. */
  function PredictionError(p: real, a: real): (e: real)
    ensures e >= 0.0
    ensures a != 0.0 ==> e * Abs(a) == Abs(p - a)
    ensures a == 0.0 ==> e == Abs(p)
  {
    if a != 0.0 then Abs(p - a) / Abs(a) else Abs(p)
  }

  /** `errors[-window:]`, and [] when there are none: always a suffix of the errors. */
  function RecentOf(errors: seq<real>, window: int): (r: seq<real>)
    ensures |r| <= |errors| && r == errors[|errors| - |r|..]
    ensures window > 0 ==> |r| == if window < |errors| then window else |errors|
  {
    if |errors| > 0 then TakeLast(errors, window) else []
  }

  /** The mean of the recent errors, 1.0 when there are none. */
  function AverageOf(errors: seq<real>, window: int): real
  {
    var recent := RecentOf(errors, window);
    if |recent| > 0 then Mean(recent) else 1.0
  }

  /** The average error lies between the smallest and the largest error it averages. */
  lemma AverageErrorBounds(errors: seq<real>, window: int, lo: real, hi: real)
    requires forall i :: 0 <= i < |errors| ==> lo <= errors[i] <= hi
    requires lo <= 1.0 <= hi
    ensures lo <= AverageOf(errors, window) <= hi
  {
    var recent := RecentOf(errors, window);
    if |recent| > 0 {
      var off := |errors| - |recent|;
      assert forall i :: 0 <= i < |recent| ==> recent[i] == errors[off + i];
      MeanBounds(recent, lo, hi);
    }
  }

  /** With no errors recorded the average error is the default 1.0. */
  lemma AverageErrorEmpty(window: int)
    ensures AverageOf([], window) == 1.0
  {
  }

  /** Non-negative errors average to a non-negative value. */
  lemma AverageErrorNonNegative(errors: seq<real>, window: int)
    requires forall i :: 0 <= i < |errors| ==> errors[i] >= 0.0
    ensures AverageOf(errors, window) >= 0.0
  {
    var recent := RecentOf(errors, window);
    if |recent| > 0 {
      var off := |errors| - |recent|;
      assert forall i :: 0 <= i < |recent| ==> recent[i] == errors[off + i];
      SumNonNegative(recent);
    }
  }

  // ----------------------------------------------------------------- records

  /**
   * One agent's record. The source's dataclass is mutated in place; here it is a
   * value that the manager's dictionary holds and replaces (its last-updated
   * stamp is left out).
   */
  datatype AgentRecord = AgentRecord(
    name: string,
    agentType: string,
    currentWeight: real,
    predictions: seq<real>,
    actuals: seq<real>,
    errors: seq<real>,
    weightHistory: seq<real>)
  {
    /** Errors are never negative and there is at most one per observed value. */
    predicate WellFormed()
    {
      |errors| <= |actuals| && forall i :: 0 <= i < |errors| ==> errors[i] >= 0.0
    }

    /** `add_prediction`. */
    function AddPrediction(p: real): (r: AgentRecord)
      ensures r == this.(predictions := predictions + [p])
    {
      this.(predictions := predictions + [p])
    }

    /**
     * `add_actual`: the value is always appended, and an error only when
     * predictions and actuals then have the same length.
     */
    function AddActual(a: real): (r: AgentRecord)
      ensures r.actuals == actuals + [a]
      ensures r.(actuals := actuals, errors := errors) == this
      ensures |predictions| == |actuals| + 1 ==>
        r.errors == errors + [PredictionError(predictions[|predictions| - 1], a)]
      ensures |predictions| != |actuals| + 1 ==> r.errors == errors
    {
      var acts := actuals + [a];
      if |predictions| == |acts| then
        this.(actuals := acts, errors := errors + [PredictionError(predictions[|predictions| - 1], a)])
      else this.(actuals := acts)
    }

    /** `get_recent_errors`. */
    function RecentErrors(window: int): seq<real>
    {
      RecentOf(errors, window)
    }

    /** `get_average_error`. */
    function AverageError(window: int): (e: real)
      ensures WellFormed() ==> e >= 0.0
      ensures |errors| == 0 ==> e == 1.0
    {
      if WellFormed() then
        AverageErrorNonNegative(errors, window);
        AverageOf(errors, window)
      else AverageOf(errors, window)
    }
  }

  function FreshRecord(name: string, agentType: string, weight: real): (r: AgentRecord)
    ensures r.WellFormed()
    ensures r.predictions == r.actuals == r.errors == r.weightHistory == []
  {
    AgentRecord(name, agentType, weight, [], [], [], [])
  }

  /** Recording a prediction or an actual keeps a record well formed. */
  lemma RecordingKeepsWellFormed(r: AgentRecord, p: real, a: real)
    requires r.WellFormed()
    ensures r.AddPrediction(p).WellFormed()
    ensures r.AddActual(a).WellFormed()
  {
  }

  /** Record each prediction followed by its actual value. */
  function Replay(r: AgentRecord, ps: seq<real>, as_: seq<real>): AgentRecord
    requires |ps| == |as_|
    decreases |ps|
  {
    if |ps| == 0 then r else Replay(r.AddPrediction(ps[0]).AddActual(as_[0]), ps[1..], as_[1..])
  }

  /** With predictions and actuals paired up, every actual gives exactly one error. */
  lemma {:induction false} PairedRecording(r: AgentRecord, ps: seq<real>, as_: seq<real>)
    requires |r.predictions| == |r.actuals| == |r.errors|
    requires |ps| == |as_|
    ensures |Replay(r, ps, as_).errors| == |r.errors| + |ps|
    ensures |Replay(r, ps, as_).predictions| == |Replay(r, ps, as_).actuals| == |Replay(r, ps, as_).errors|
    decreases |ps|
  {
    if |ps| > 0 {
      var r1 := r.AddPrediction(ps[0]).AddActual(as_[0]);
      assert |r1.errors| == |r.errors| + 1;
      PairedRecording(r1, ps[1..], as_[1..]);
    }
  }

  // ----------------------------------------------------------------- weights

  /**
   * The weight rule of `calculate_weight` for a known agent: blend the current
   * weight with the inverse average error (0.001 when the error is not
   * positive), clamp to the configured bounds, then apply the decay.
   */
  function WeightRule(c: Config, current: real, avgError: real): (r: real)
    ensures c.minWeight <= c.maxWeight && c.weightDecay >= 0.0 ==>
      c.minWeight * c.weightDecay <= r <= c.maxWeight * c.weightDecay
  {
    var err := if avgError <= 0.0 then 0.001 else avgError;
    var blended := current * (1.0 - c.learningRate) + (1.0 / err) * c.learningRate;
    var bounded := Max(c.minWeight, Min(blended, c.maxWeight));
    assert c.minWeight <= c.maxWeight ==> c.minWeight <= bounded <= c.maxWeight;
    bounded * c.weightDecay
  }

  /** Inside the bounds the rule is exactly the decayed learning-rate blend. */
  lemma WeightRuleInterior(c: Config, current: real, avgError: real)
    requires avgError > 0.0
    requires c.minWeight <= current * (1.0 - c.learningRate) + (1.0 / avgError) * c.learningRate <= c.maxWeight
    ensures WeightRule(c, current, avgError) ==
      (current * (1.0 - c.learningRate) + (1.0 / avgError) * c.learningRate) * c.weightDecay
  {
    var blended := current * (1.0 - c.learningRate) + (1.0 / avgError) * c.learningRate;
    assert Min(blended, c.maxWeight) == blended;
    assert Max(c.minWeight, blended) == blended;
  }

  /** A non-positive average error is treated as 0.001. */
  lemma WeightRuleNonPositiveError(c: Config, current: real, avgError: real)
    requires avgError <= 0.0
    ensures WeightRule(c, current, avgError) == WeightRule(c, current, 0.001)
  {
  }

  /** `calculate_weight` on a record, with the configured error window. */
  function RecordWeight(c: Config, r: AgentRecord): real
  {
    WeightRule(c, r.currentWeight, r.AverageError(c.errorWindowSize))
  }

  /** Setting a weight pushes the old one on the record's weight history. */
  function WithWeight(r: AgentRecord, w: real): (r': AgentRecord)
    ensures r'.weightHistory == r.weightHistory + [r.currentWeight] && r'.currentWeight == w
    ensures r'.(currentWeight := r.currentWeight, weightHistory := r.weightHistory) == r
    ensures r'.name == r.name && (r'.WellFormed() <==> r.WellFormed())
  {
    r.(currentWeight := w, weightHistory := r.weightHistory + [r.currentWeight])
  }

  /** The error logged with a weight change: the average over the default window of 10, or 0.0. */
  function LoggedError(r: AgentRecord): (e: real)
    ensures r.WellFormed() ==> e >= 0.0
  {
    if |r.errors| > 0 then r.AverageError(10) else 0.0
  }

  /** One entry of the manager's update history (its timestamp is left out). */
  datatype HistoryEntry = HistoryEntry(agent: string, oldWeight: real, newWeight: real, error: real)

  /**
   * `update_weight(name, new_weight)` on the record: the given weight, or the
   * computed one when none is given, with the old weight pushed on its history.
   */
  function Updated(c: Config, r: AgentRecord, newWeight: Option<real>): (r': AgentRecord)
    ensures r'.currentWeight == if newWeight.Some? then newWeight.value else RecordWeight(c, r)
    ensures r'.weightHistory == r.weightHistory + [r.currentWeight]
    ensures r'.name == r.name && (r'.WellFormed() <==> r.WellFormed())
  {
    WithWeight(r, if newWeight.Some? then newWeight.value else RecordWeight(c, r))
  }

  /** The manager history entry that update logs: old weight, new weight and the logged error. */
  function UpdateEntry(c: Config, name: string, r: AgentRecord, newWeight: Option<real>): (e: HistoryEntry)
    ensures e.agent == name && e.oldWeight == r.currentWeight
    ensures e.newWeight == Updated(c, r, newWeight).currentWeight && e.error == LoggedError(r)
  {
    HistoryEntry(name, r.currentWeight, if newWeight.Some? then newWeight.value else RecordWeight(c, r), LoggedError(r))
  }

  /** The dictionary after updating the listed agents one after the other (unknown names are skipped). */
  function RefreshAll(c: Config, m: map<string, AgentRecord>, ns: seq<string>): (m': map<string, AgentRecord>)
    decreases |ns|
    ensures forall n :: n in m' <==> n in m
  {
    if |ns| == 0 then m
    else
      var prev := RefreshAll(c, m, ns[..|ns| - 1]);
      var x := ns[|ns| - 1];
      if x in prev then prev[x := Updated(c, prev[x], None)] else prev
  }

  /** The history entries those updates log, in order. */
  function RefreshLog(c: Config, m: map<string, AgentRecord>, ns: seq<string>): seq<HistoryEntry>
    decreases |ns|
  {
    if |ns| == 0 then []
    else
      var prev := RefreshAll(c, m, ns[..|ns| - 1]);
      var x := ns[|ns| - 1];
      RefreshLog(c, m, ns[..|ns| - 1]) + (if x in prev then [UpdateEntry(c, x, prev[x], None)] else [])
  }

  /** One more name: its update is applied to the dictionary and its entry appended to the log. */
  lemma RefreshStep(c: Config, m: map<string, AgentRecord>, ns: seq<string>, x: string)
    requires x in m
    ensures RefreshAll(c, m, ns + [x]) == RefreshAll(c, m, ns)[x := Updated(c, RefreshAll(c, m, ns)[x], None)]
    ensures RefreshLog(c, m, ns + [x]) == RefreshLog(c, m, ns) + [UpdateEntry(c, x, RefreshAll(c, m, ns)[x], None)]
  {
    assert (ns + [x])[..|ns|] == ns;
  }

  /**
   * Updating distinct agents in turn refreshes each listed one from its original
   * record, leaves the others alone, and logs one entry per agent in list order.
   */
  lemma {:induction false} RefreshAllDistinct(c: Config, m: map<string, AgentRecord>, ns: seq<string>)
    requires Unique(ns) && forall k :: 0 <= k < |ns| ==> ns[k] in m
    ensures forall n :: n in m ==> RefreshAll(c, m, ns)[n] == if n in ns then Updated(c, m[n], None) else m[n]
    ensures |RefreshLog(c, m, ns)| == |ns|
    ensures forall k :: 0 <= k < |ns| ==> RefreshLog(c, m, ns)[k] == UpdateEntry(c, ns[k], m[ns[k]], None)
    decreases |ns|
  {
    if |ns| > 0 {
      var init := ns[..|ns| - 1];
      var x := ns[|ns| - 1];
      assert Unique(init);
      RefreshAllDistinct(c, m, init);
      assert x !in init;
      assert forall n :: n in ns <==> n in init || n == x;
    }
  }

  /** Valid dictionaries stay valid under any sequence of updates. */
  lemma {:induction false} RefreshAllKeepsRecords(c: Config, m: map<string, AgentRecord>, ns: seq<string>)
    requires RecordsOk(m)
    ensures RecordsOk(RefreshAll(c, m, ns))
    decreases |ns|
  {
    if |ns| > 0 {
      RefreshAllKeepsRecords(c, m, ns[..|ns| - 1]);
    }
  }

  // ----------------------------------------------------------- normalisation

  /**
   * Normalisation of an ordered weight dictionary: divide by the total when it
   * is positive and normalisation is enabled, otherwise give every agent 1/n
   * (an empty dictionary stays empty).
   */
  function Normalize(ws: seq<(string, real)>, enabled: bool): (r: seq<(string, real)>)
    ensures Keys(r) == Keys(ws)
  {
    var total := Sum(Values(ws));
    if total > 0.0 && enabled then seq(|ws|, i requires 0 <= i < |ws| => (ws[i].0, ws[i].1 / total))
    else seq(|ws|, i requires 0 <= i < |ws| => (ws[i].0, 1.0 / |ws| as real))
  }

  /** Normalised weights sum to 1. */
  lemma NormalizeSumsToOne(ws: seq<(string, real)>, enabled: bool)
    requires enabled && Sum(Values(ws)) > 0.0
    ensures Sum(Values(Normalize(ws, enabled))) == 1.0
  {
    var r := Normalize(ws, enabled);
    var t := Sum(Values(ws));
    assert forall i :: 0 <= i < |ws| ==> Values(r)[i] == Values(ws)[i] / t;
    SumScaled(Values(ws), t, Values(r));
    assert t / t == 1.0;
  }

  /** Normalised weights are proportional to the weights. */
  lemma NormalizeProportional(ws: seq<(string, real)>, enabled: bool)
    requires enabled && Sum(Values(ws)) > 0.0
    ensures forall i :: 0 <= i < |ws| ==> Normalize(ws, enabled)[i].1 * Sum(Values(ws)) == ws[i].1
  {
    var r := Normalize(ws, enabled);
    var t := Sum(Values(ws));
    forall i | 0 <= i < |ws|
      ensures r[i].1 * t == ws[i].1
    {
      assert r[i].1 == ws[i].1 / t;
      DivMul(ws[i].1, t);
    }
  }

  lemma NormalizeUniform(ws: seq<(string, real)>, enabled: bool)
    requires !(enabled && Sum(Values(ws)) > 0.0)
    ensures forall i :: 0 <= i < |ws| ==> Normalize(ws, enabled)[i].1 == 1.0 / |ws| as real
    ensures |ws| > 0 ==> Sum(Values(Normalize(ws, enabled))) == 1.0
  {
    var r := Normalize(ws, enabled);
    if |ws| > 0 {
      assert forall i :: 0 <= i < |ws| ==> Values(r)[i] == 1.0 / |ws| as real;
      SumConstant(Values(r), 1.0 / |ws| as real);
    }
  }

  // ----------------------------------------------------------------- manager

  /** The registration-order list names exactly the agents of the dictionary. */
  ghost predicate Indexes(names: seq<string>, agents: map<string, AgentRecord>)
  {
    forall n :: n in agents <==> n in names
  }

  /** Every record is well formed and is filed under its own name. */
  ghost predicate RecordsOk(agents: map<string, AgentRecord>)
  {
    forall n :: n in agents ==> agents[n].name == n && agents[n].WellFormed()
  }

  /** Replacing a known agent's record by a good one keeps the dictionary consistent. */
  lemma ReplaceRecord(names: seq<string>, agents: map<string, AgentRecord>, n: string, r: AgentRecord)
    requires Indexes(names, agents) && RecordsOk(agents) && n in agents
    requires r.name == n && r.WellFormed()
    ensures Indexes(names, agents[n := r]) && RecordsOk(agents[n := r])
    ensures agents[n := r].Keys == agents.Keys
  {
  }

  class AdaptiveWeightManager {
    var config: Config
    /** Agent names in registration order (the dictionary's iteration order). */
    var names: seq<string>
    var agents: map<string, AgentRecord>
    var history: seq<HistoryEntry>

    /** The names list and the dictionary agree; every record is well formed and carries its name. */
    ghost predicate Valid()
      reads this
    {
      Unique(names) && Indexes(names, agents) && RecordsOk(agents)
    }

    constructor (config: Config)
      ensures Valid() && this.config == config
      ensures names == [] && agents == map[] && history == []
    {
      this.config := config;
      names, agents, history := [], map[], [];
    }

    /** `register_agent`: a new name gets a fresh record; a known name is left as it is. */
    method RegisterAgent(name: string, agentType: string)
      requires Valid()
      modifies this`names, this`agents
      ensures Valid()
      ensures name in old(agents) ==> names == old(names) && agents == old(agents)
      ensures name !in old(agents) ==>
        names == old(names) + [name] && agents == old(agents)[name := FreshRecord(name, agentType, config.initialWeight)]
    {
      if name !in agents {
        assert name !in names;
        agents := agents[name := FreshRecord(name, agentType, config.initialWeight)];
        names := names + [name];
      }
    }

    /** `record_prediction`: false and no change for an unknown agent. */
    method RecordPrediction(agentName: string, prediction: real) returns (ok: bool)
      requires Valid()
      modifies this`agents
      ensures Valid()
      ensures ok <==> agentName in old(agents)
      ensures agents == if ok then old(agents)[agentName := old(agents)[agentName].AddPrediction(prediction)]
                        else old(agents)
    {
      ok := agentName in agents;
      if ok {
        RecordingKeepsWellFormed(agents[agentName], prediction, 0.0);
        ReplaceRecord(names, agents, agentName, agents[agentName].AddPrediction(prediction));
        agents := agents[agentName := agents[agentName].AddPrediction(prediction)];
      }
    }

    /** `record_actual`: false and no change for an unknown agent. */
    method RecordActual(agentName: string, actual: real) returns (ok: bool)
      requires Valid()
      modifies this`agents
      ensures Valid()
      ensures ok <==> agentName in old(agents)
      ensures agents == if ok then old(agents)[agentName := old(agents)[agentName].AddActual(actual)]
                        else old(agents)
    {
      ok := agentName in agents;
      if ok {
        RecordingKeepsWellFormed(agents[agentName], 0.0, actual);
        ReplaceRecord(names, agents, agentName, agents[agentName].AddActual(actual));
        agents := agents[agentName := agents[agentName].AddActual(actual)];
      }
    }

    /** `calculate_weight`: the initial weight for an unknown agent, else the weight rule. */
    function CalculateWeight(agentName: string): (w: real)
      reads this
      ensures agentName !in agents ==> w == config.initialWeight
      ensures agentName in agents && config.minWeight <= config.maxWeight && config.weightDecay >= 0.0 ==>
        config.minWeight * config.weightDecay <= w <= config.maxWeight * config.weightDecay
    {
      if agentName !in agents then config.initialWeight else RecordWeight(config, agents[agentName])
    }

    /**
     * `update_weight`: for a known agent, push the old weight on its history, set
     * the new one (given, or computed) and log exactly one manager history entry.
     */
    method UpdateWeight(agentName: string, newWeight: Option<real>) returns (ok: bool)
      requires Valid()
      modifies this`agents, this`history
      ensures Valid()
      ensures ok <==> agentName in old(agents)
      ensures !ok ==> agents == old(agents) && history == old(history)
      ensures ok ==> agents == old(agents)[agentName := Updated(config, old(agents)[agentName], newWeight)]
      ensures ok ==> history == old(history) + [UpdateEntry(config, agentName, old(agents)[agentName], newWeight)]
    {
      if agentName !in agents {
        return false;
      }
      var agent := agents[agentName];
      ReplaceRecord(names, agents, agentName, Updated(config, agent, newWeight));
      agents := agents[agentName := Updated(config, agent, newWeight)];
      history := history + [UpdateEntry(config, agentName, agent, newWeight)];
      return true;
    }

    /**
     * `update_all_weights`: every agent, in registration order, gets its computed
     * weight (what that means per agent is `RefreshAllDistinct`).
     */
    method UpdateAllWeights()
      requires Valid()
      modifies this`agents, this`history
      ensures Valid()
      ensures agents == RefreshAll(config, old(agents), names)
      ensures history == old(history) + RefreshLog(config, old(agents), names)
    {
      var i := 0;
      while i < |names|
        invariant 0 <= i <= |names|
        invariant Valid()
        invariant agents == RefreshAll(config, old(agents), names[..i])
        invariant history == old(history) + RefreshLog(config, old(agents), names[..i])
      {
        var name := names[i];
        PrefixSnoc(names, i);
        RefreshStep(config, old(agents), names[..i], name);
        ghost var h, before := history, agents;
        ghost var log := RefreshLog(config, old(agents), names[..i]);
        var ok := UpdateWeight(name, None);
        ghost var e := UpdateEntry(config, name, before[name], None);
        assert history == h + [e];
        assert old(history) + (log + [e]) == old(history) + log + [e];
        i := i + 1;
      }
      assert names[..i] == names;
    }

    /** `get_weight`: the record's weight, or the record default 1.0 for an unknown agent. */
    function GetWeight(agentName: string): (w: real)
      reads this
      ensures agentName in agents ==> w == agents[agentName].currentWeight
      ensures agentName !in agents ==> w == 1.0
    {
      if agentName in agents then agents[agentName].currentWeight else 1.0
    }

    /** `get_all_weights` in registration order. */
    function AllWeights(): (ws: seq<(string, real)>)
      reads this
      requires Valid()
      ensures Keys(ws) == names
      ensures forall i :: 0 <= i < |ws| ==> ws[i].1 == agents[names[i]].currentWeight
    {
      seq(|names|, i requires 0 <= i < |names| reads this requires Valid() =>
        (names[i], agents[names[i]].currentWeight))
    }

    /** `get_normalized_weights`. */
    function NormalizedWeights(): (ws: seq<(string, real)>)
      reads this
      requires Valid()
      ensures Keys(ws) == names
      ensures config.enableWeightNormalization && Sum(Values(AllWeights())) > 0.0 ==> Sum(Values(ws)) == 1.0
      ensures !(config.enableWeightNormalization && Sum(Values(AllWeights())) > 0.0) ==>
        forall i :: 0 <= i < |ws| ==> ws[i].1 == 1.0 / |names| as real
    {
      var ws := AllWeights();
      if config.enableWeightNormalization && Sum(Values(ws)) > 0.0 then
        NormalizeSumsToOne(ws, config.enableWeightNormalization);
        Normalize(ws, config.enableWeightNormalization)
      else
        NormalizeUniform(ws, config.enableWeightNormalization);
        Normalize(ws, config.enableWeightNormalization)
    }

    /** `get_agent_error`: the average error over the default window, 1.0 for an unknown agent. */
    function GetAgentError(agentName: string): (e: real)
      reads this
      requires Valid()
      ensures e >= 0.0
      ensures agentName !in agents ==> e == 1.0
      ensures agentName in agents ==> e == AverageOf(agents[agentName].errors, 10)
    {
      if agentName in agents then agents[agentName].AverageError(10) else 1.0
    }

    /** `get_agent_layer`: the record's type, "analyst" for an unknown agent. */
    function GetAgentLayer(agentName: string): (layer: string)
      reads this
      ensures agentName in agents ==> layer == agents[agentName].agentType
      ensures agentName !in agents ==> layer == "analyst"
    {
      if agentName in agents then agents[agentName].agentType else "analyst"
    }

    /** `reset_agent`: a fresh record with the same type and the initial weight; others untouched. */
    method ResetAgent(agentName: string)
      requires Valid()
      modifies this`agents
      ensures Valid()
      ensures agentName in old(agents) ==>
        agents == old(agents)[agentName := FreshRecord(agentName, old(agents)[agentName].agentType, config.initialWeight)]
      ensures agentName !in old(agents) ==> agents == old(agents)
    {
      if agentName in agents {
        var agentType := agents[agentName].agentType;
        ReplaceRecord(names, agents, agentName, FreshRecord(agentName, agentType, config.initialWeight));
        agents := agents[agentName := FreshRecord(agentName, agentType, config.initialWeight)];
      }
    }
  }
}
