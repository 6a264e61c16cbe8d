/**
 * The external adaptive processor: it keeps an adaptive system outside the
 * trading graph, registers the agents a prediction batch names (guessing each
 * new agent's layer from its name), records the predictions, returns and logs
 * the weighted decision, and later feeds a market move back into the weights.
 */
module AdaptiveExternalProcessor {
  import opened Common
  import opened WeightManager
  import opened AdaptivePackage
  import opened AdaptiveConfig

  // ------------------------------------------------------ agent type guess

  /** The keyword groups tried in turn, each with the type it selects. */
  const TypeRules: seq<(seq<string>, string)> := [
    (["analyst", "分析"], "analyst"),
    (["researcher", "research", "研究员"], "researcher"),
    (["trader", "交易"], "trader"),
    (["debator", "debate", "辩论"], "debator"),
    (["manager", "manage", "经理"], "manager")
  ]

  /** The type of the first rule from `i` on with a keyword in `lower`, "analyst" when none has. */
  function TypeFrom(lower: string, i: nat): (t: string)
    requires i <= |TypeRules|
    ensures t in {"analyst", "researcher", "trader", "debator", "manager"}
    decreases |TypeRules| - i
  {
    if i == |TypeRules| then "analyst"
    else if ContainsAny(lower, TypeRules[i].0) then TypeRules[i].1
    else TypeFrom(lower, i + 1)
  }

  /** `_infer_agent_type`: the layer guessed from the lower-cased name. */
  function InferAgentType(name: string): (t: string)
    ensures t in {"analyst", "researcher", "trader", "debator", "manager"}
  {
    TypeFrom(Lower(name), 0)
  }

  /** From `i` on, the first rule whose keywords occur decides the type. */
  lemma {:induction false} TypeFromFirst(lower: string, i: nat, k: nat)
    requires i <= k < |TypeRules|
    requires ContainsAny(lower, TypeRules[k].0)
    requires forall j :: i <= j < k ==> !ContainsAny(lower, TypeRules[j].0)
    ensures TypeFrom(lower, i) == TypeRules[k].1
    decreases k - i
  {
    if i < k {
      TypeFromFirst(lower, i + 1, k);
    }
  }

  /** From `i` on, with no keyword of any later rule in `lower` the type is "analyst". */
  lemma {:induction false} TypeFromNone(lower: string, i: nat)
    requires i <= |TypeRules|
    requires forall j :: i <= j < |TypeRules| ==> !ContainsAny(lower, TypeRules[j].0)
    ensures TypeFrom(lower, i) == "analyst"
    decreases |TypeRules| - i
  {
    if i < |TypeRules| {
      TypeFromNone(lower, i + 1);
    }
  }

  /** The keyword groups select five distinct types. */
  lemma TypesDistinct(a: nat, b: nat)
    requires a < b < |TypeRules|
    ensures TypeRules[a].1 != TypeRules[b].1
  {
  }

  /** From `i` on, the type is never that of an earlier non-default rule. */
  lemma {:induction false} TypeFromLater(lower: string, i: nat, k: nat)
    requires 1 <= k < i <= |TypeRules|
    ensures TypeFrom(lower, i) != TypeRules[k].1
    decreases |TypeRules| - i
  {
    if i < |TypeRules| {
      TypesDistinct(k, i);
      TypeFromLater(lower, i + 1, k);
    } else {
      TypesDistinct(0, k);
    }
  }

  /** A non-default type is chosen from `i` on exactly when its rule is the first one from `i` whose keywords occur. */
  lemma {:induction false} TypeFromOnly(lower: string, i: nat, k: nat)
    requires 1 <= k < |TypeRules| && i <= k
    ensures TypeFrom(lower, i) == TypeRules[k].1 <==>
      ContainsAny(lower, TypeRules[k].0) && forall j :: i <= j < k ==> !ContainsAny(lower, TypeRules[j].0)
    decreases |TypeRules| - i
  {
    if ContainsAny(lower, TypeRules[i].0) {
      if i < k {
        TypesDistinct(i, k);
      }
    } else if i < k {
      TypeFromOnly(lower, i + 1, k);
    } else {
      TypeFromLater(lower, i + 1, k);
    }
  }

  /**
   * The rules are tried in order: the name gets the type of the first rule
   * with a keyword in it, and "analyst" when no rule has one.
   */
  lemma InferFirstRule(name: string, k: nat)
    requires k < |TypeRules|
    requires ContainsAny(Lower(name), TypeRules[k].0)
    requires forall j :: 0 <= j < k ==> !ContainsAny(Lower(name), TypeRules[j].0)
    ensures InferAgentType(name) == TypeRules[k].1
  {
    TypeFromFirst(Lower(name), 0, k);
  }

  /** With no keyword of any rule in the name the type is the default "analyst". */
  lemma InferDefault(name: string)
    requires forall j :: 0 <= j < |TypeRules| ==> !ContainsAny(Lower(name), TypeRules[j].0)
    ensures InferAgentType(name) == "analyst"
  {
    TypeFromNone(Lower(name), 0);
  }

  /** A name is typed researcher, trader, debator or manager exactly when that rule is the first to match. */
  lemma InferOnly(name: string, k: nat)
    requires 1 <= k < |TypeRules|
    ensures InferAgentType(name) == TypeRules[k].1 <==>
      ContainsAny(Lower(name), TypeRules[k].0) && forall j :: 0 <= j < k ==> !ContainsAny(Lower(name), TypeRules[j].0)
  {
    TypeFromOnly(Lower(name), 0, k);
  }

  /** Because the analyst words are tried first, a name with "analyst" in it is typed analyst, whatever else it says. */
  lemma AnalystBeforeResearch(name: string)
    requires Contains(Lower(name), "analyst")
    ensures InferAgentType(name) == "analyst"
  {
    assert TypeRules[0].0[0] == "analyst";
    TypeFromFirst(Lower(name), 0, 0);
  }

  // ------------------------------------------------------------ the state

  /** One entry of `prediction_history`. */
  datatype HistoryRecord = HistoryRecord(timestamp: string, context: string, predictions: seq<(string, real)>, result: Decision)

  /** What an update file holds: the agents to update (none when absent) and possibly the actual change. */
  datatype UpdateFile = UpdateFile(agents: seq<string>, actualChange: Option<real>)

  /** The dictionary after every unknown prediction key was registered with its guessed type. */
  function AutoRegistered(m: map<string, AgentRecord>, ps: seq<(string, real)>, initialWeight: real): (m': map<string, AgentRecord>)
    ensures forall n :: n in m' <==> n in m || HasKey(ps, n)
    ensures forall n :: n in m ==> m'[n] == m[n]
    decreases |ps|
  {
    if |ps| == 0 then m
    else
      var front := ps[..|ps| - 1];
      var e := ps[|ps| - 1];
      var m' := AutoRegistered(m, front, initialWeight);
      LastSplit(ps);
      assert forall n :: HasKey(ps, n) <==> HasKey(front, n) || n == e.0 by {
        forall n ensures HasKey(ps, n) <==> HasKey(front, n) || n == e.0 {
          HasKeyConcat(front, [e], n);
          HasKeySingle([e], n);
        }
      }
      if e.0 in m' then m' else m'[e.0 := FreshRecord(e.0, InferAgentType(e.0), initialWeight)]
  }

  /** A key that was not registered before gets a fresh record with the type guessed from its name. */
  lemma {:induction false} AutoRegisteredNew(m: map<string, AgentRecord>, ps: seq<(string, real)>, initialWeight: real, n: string)
    requires n !in m && HasKey(ps, n)
    ensures AutoRegistered(m, ps, initialWeight)[n] == FreshRecord(n, InferAgentType(n), initialWeight)
    decreases |ps|
  {
    var front := ps[..|ps| - 1];
    var e := ps[|ps| - 1];
    LastSplit(ps);
    HasKeyConcat(front, [e], n);
    HasKeySingle([e], n);
    if HasKey(front, n) {
      AutoRegisteredNew(m, front, initialWeight, n);
    }
  }

  // ---------------------------------------------------------- the processor

  class ExternalAdaptiveProcessor {
    const adaptive: AdaptiveSystem
    var configFile: string
    var predictionHistory: seq<HistoryRecord>

    ghost predicate Valid()
      reads this, adaptive, adaptive.weightManager
    {
      adaptive.Valid()
    }

    /**
     * `ExternalAdaptiveProcessor(config_file)`: a fresh adaptive system with
     * default settings, then `load_config`, which registers the "agents" pairs
     * of the configuration file when the file exists; `configAgents` is that
     * list, None when there is no file.
     */
    constructor (configFile: string, configAgents: Option<seq<(string, string)>>)
      ensures Valid() && fresh(adaptive) && fresh(adaptive.weightManager)
      ensures this.configFile == configFile && predictionHistory == []
      ensures configAgents.None? ==> adaptive.weightManager.agents == map[]
      ensures configAgents.Some? ==>
        (forall n :: n in adaptive.weightManager.agents <==> HasKey(configAgents.value, n))
        && forall n :: n in adaptive.weightManager.agents ==>
          adaptive.weightManager.agents[n] == FreshRecord(n, Get(configAgents.value, n).value, adaptive.config.initialWeight)
      ensures adaptive.weightManager.history == []
    {
      adaptive := new AdaptiveSystem(None);
      this.configFile := configFile;
      predictionHistory := [];
      new;
      if configAgents.Some? {
        adaptive.RegisterEach(configAgents.value);
      }
    }

    /** The registration loop: every key not known beforehand is registered with its guessed type. */
    method RegisterUnknown(predictions: seq<(string, real)>)
      requires Valid()
      modifies adaptive.weightManager
      ensures Valid()
      ensures adaptive.weightManager.agents ==
        AutoRegistered(old(adaptive.weightManager.agents), predictions, adaptive.config.initialWeight)
      ensures adaptive.weightManager.history == old(adaptive.weightManager.history)
    {
      var registered := adaptive.weightManager.names;
      var i := 0;
      while i < |predictions|
        invariant 0 <= i <= |predictions|
        invariant Valid()
        invariant adaptive.weightManager.agents ==
          AutoRegistered(old(adaptive.weightManager.agents), predictions[..i], adaptive.config.initialWeight)
        invariant adaptive.weightManager.history == old(adaptive.weightManager.history)
      {
        assert predictions[..i + 1][..i] == predictions[..i];
        var name := predictions[i].0;
        if name !in registered {
          var _ := adaptive.RegisterAgent(name, InferAgentType(name));
        }
        i := i + 1;
      }
      assert predictions[..i] == predictions;
    }

    /**
     * `process_predictions`: unknown agents are registered with their guessed
     * type, every prediction is recorded, and the weighted decision is
     * returned and appended, with the time and the context, to the history.
     */
    method ProcessPredictions(predictions: seq<(string, real)>, context: string, timestamp: string)
      returns (result: Decision)
      requires Valid()
      modifies this, adaptive.weightManager
      ensures Valid()
      ensures adaptive.weightManager.agents == RecordedKnown(
        AutoRegistered(old(adaptive.weightManager.agents), predictions, adaptive.config.initialWeight), predictions)
      ensures adaptive.weightManager.history == old(adaptive.weightManager.history)
      ensures result == adaptive.WeightedDecision(predictions)
      ensures predictionHistory == old(predictionHistory) + [HistoryRecord(timestamp, context, predictions, result)]
      ensures configFile == old(configFile)
    {
      RegisterUnknown(predictions);
      adaptive.RecordEach(predictions);
      result := adaptive.WeightedDecision(predictions);
      predictionHistory := predictionHistory + [HistoryRecord(timestamp, context, predictions, result)];
    }

    /**
     * `update_with_market_result`: `update_with_result` with no prediction
     * for each agent of the update file, or, without a file, for every
     * registered agent in registration order; the file's actual change, when
     * it gives one, replaces the argument.
     */
    method UpdateWithMarketResult(actualChange: real, updateFile: Option<UpdateFile>)
      requires Valid()
      modifies adaptive.weightManager
      ensures Valid()
      ensures var names := if updateFile.Some? then updateFile.value.agents else old(adaptive.weightManager.names);
        var actual := if updateFile.Some? && updateFile.value.actualChange.Some? then updateFile.value.actualChange.value else actualChange;
        (adaptive.weightManager.agents, adaptive.weightManager.history) ==
          UpdatedAll(adaptive.config, (old(adaptive.weightManager.agents), old(adaptive.weightManager.history)), names, actual)
      ensures updateFile.None? ==>
        LogsEach(old(adaptive.weightManager.history), old(adaptive.weightManager.names), adaptive.weightManager.history)
      ensures adaptive.weightManager.names == old(adaptive.weightManager.names)
    {
      var names := if updateFile.Some? then updateFile.value.agents else adaptive.weightManager.names;
      var actual := if updateFile.Some? && updateFile.value.actualChange.Some? then updateFile.value.actualChange.value else actualChange;
      ghost var start := (adaptive.weightManager.agents, adaptive.weightManager.history);
      if updateFile.None? {
        NoFileLogs(adaptive.config, start, names, actual);
      }
      adaptive.UpdateEach(names, actual);
    }
  }

  /** History h is h0 followed by one entry for each of names, in order. */
  ghost predicate LogsEach(h0: seq<HistoryEntry>, names: seq<string>, h: seq<HistoryEntry>)
  {
    |h| == |h0| + |names| && h[..|h0|] == h0
    && forall i :: 0 <= i < |names| ==> h[|h0| + i].agent == names[i]
  }

  /** Updating every registered agent logs one entry per agent, in registration order. */
  lemma NoFileLogs(c: Config, st: (map<string, AgentRecord>, seq<HistoryEntry>), names: seq<string>, actual: real)
    requires Indexes(names, st.0)
    ensures LogsEach(st.1, names, UpdatedAll(c, st, names, actual).1)
  {
    forall i | 0 <= i < |names| ensures names[i] in st.0 {
    }
    UpdatedAllKnown(c, st, names, actual);
  }

  /**
   * After a batch is processed every one of its agents is registered, and with
   * distinct keys a newly seen agent holds a fresh record of its guessed type
   * with just that prediction, and a known one gains that prediction.
   */
  lemma ProcessedRecord(m: map<string, AgentRecord>, ps: seq<(string, real)>, initialWeight: real, n: string)
    requires Unique(Keys(ps)) && HasKey(ps, n)
    ensures n in RecordedKnown(AutoRegistered(m, ps, initialWeight), ps)
    ensures RecordedKnown(AutoRegistered(m, ps, initialWeight), ps)[n] ==
      (if n in m then m[n] else FreshRecord(n, InferAgentType(n), initialWeight)).AddPrediction(Get(ps, n).value)
  {
    var a := AutoRegistered(m, ps, initialWeight);
    if n !in m {
      AutoRegisteredNew(m, ps, initialWeight, n);
    }
    RecordedRead(a, ps, n);
  }
}
