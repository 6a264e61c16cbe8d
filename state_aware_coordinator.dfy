/**
 * The state-aware coordinator: it runs the market-state recogniser, keeps a
 * bounded history of recognised states, registers and records the agents'
 * predictions with the weight manager, and lists the state transitions of
 * the recent history.
 */
module StateAwareCoordinator {
  import opened Common
  import opened AdaptiveConfig
  import opened WeightManager

  /** A recogniser result: a dictionary from keys to values. */
  type Analysis = seq<(string, Value)>

  /** The history keeps at most this many entries. */
  const HistoryCap: nat := 1000

  /** The state name used when the recogniser fails or reports none. */
  const UnknownState: string := "未知"

  // --------------------------------------------------------- agent types

  /** The keyword groups tried in order, each with the type it selects. */
  const KeywordGroups: seq<(seq<string>, string)> := [
    (["trend", "momentum"], "trend_analyst"),
    (["reversion", "mean"], "reversion_analyst"),
    (["volatility", "risk"], "risk_analyst"),
    (["range", "channel"], "range_analyst")]

  /** `_infer_agent_type`: the first keyword group found in the lower-cased name. */
  function InferAgentType(agentName: string): (t: string)
    ensures t in {"trend_analyst", "reversion_analyst", "risk_analyst", "range_analyst", "analyst"}
  {
    var n := Lower(agentName);
    if ContainsAny(n, ["trend", "momentum"]) then "trend_analyst"
    else if ContainsAny(n, ["reversion", "mean"]) then "reversion_analyst"
    else if ContainsAny(n, ["volatility", "risk"]) then "risk_analyst"
    else if ContainsAny(n, ["range", "channel"]) then "range_analyst"
    else "analyst"
  }

  /** The type is the one of the first group with a keyword in the name, "analyst" if none has. */
  lemma InferAgentTypeFirstGroup(agentName: string, i: nat)
    requires i < |KeywordGroups|
    requires ContainsAny(Lower(agentName), KeywordGroups[i].0)
    requires forall j :: 0 <= j < i ==> !ContainsAny(Lower(agentName), KeywordGroups[j].0)
    ensures InferAgentType(agentName) == KeywordGroups[i].1
  {
    if i > 0 {
      assert !ContainsAny(Lower(agentName), KeywordGroups[0].0);
    }
    if i > 1 {
      assert !ContainsAny(Lower(agentName), KeywordGroups[1].0);
    }
    if i > 2 {
      assert !ContainsAny(Lower(agentName), KeywordGroups[2].0);
    }
  }

  lemma InferAgentTypeDefault(agentName: string)
    requires forall j :: 0 <= j < |KeywordGroups| ==> !ContainsAny(Lower(agentName), KeywordGroups[j].0)
    ensures InferAgentType(agentName) == "analyst"
  {
    assert !ContainsAny(Lower(agentName), KeywordGroups[0].0);
    assert !ContainsAny(Lower(agentName), KeywordGroups[1].0);
    assert !ContainsAny(Lower(agentName), KeywordGroups[2].0);
    assert !ContainsAny(Lower(agentName), KeywordGroups[3].0);
  }

  /** Lower-casing a name first does not change its type. */
  lemma InferAgentTypeIgnoresCase(agentName: string)
    ensures InferAgentType(Lower(agentName)) == InferAgentType(agentName)
  {
    LowerIdempotent(agentName);
  }

  lemma LowerIdempotent(s: string)
    ensures Lower(Lower(s)) == Lower(s)
  {
    assert forall i :: 0 <= i < |s| ==> LowerChar(LowerChar(s[i])) == LowerChar(s[i]);
  }

  // ------------------------------------------------------------- history

  /** One entry of `state_history`; the time stamp is the caller's clock. */
  datatype StateEntry = StateEntry(timestamp: int, symbol: string, state: Value, confidence: Value)

  /** One entry of `get_state_transitions`. */
  datatype Transition = Transition(from: Value, to: Value, timestamp: int, symbol: string)

  /** The entry recorded for a successful recognition. */
  function EntryOf(symbol: string, result: Analysis, now: int): (e: StateEntry)
    ensures e.state == (if HasKey(result, "market_state") then Get(result, "market_state").value else Str(UnknownState))
    ensures e.confidence == (if HasKey(result, "confidence") then Get(result, "confidence").value else Num(0.0))
    ensures e.timestamp == now && e.symbol == symbol
  {
    StateEntry(now, symbol, GetOr(result, "market_state", Str(UnknownState)), GetOr(result, "confidence", Num(0.0)))
  }

  /** The result reported when the recogniser raises. */
  function FailedAnalysis(msg: string): Analysis
  {
    [("market_state", Str(UnknownState)), ("confidence", Num(0.0)), ("error", Str(msg))]
  }

  /** The recognised states of a history, in order. */
  function States(h: seq<StateEntry>): (r: seq<Value>)
    ensures |r| == |h| && forall i :: 0 <= i < |h| ==> r[i] == h[i].state
  {
    seq(|h|, i requires 0 <= i < |h| => h[i].state)
  }

  /** One transition per adjacent pair of entries whose states differ, in order. */
  function TransitionsOf(h: seq<StateEntry>): seq<Transition>
    decreases |h|
  {
    if |h| < 2 then []
    else
      TransitionsOf(h[..|h| - 1])
      + (if h[|h| - 2].state != h[|h| - 1].state
         then [Transition(h[|h| - 2].state, h[|h| - 1].state, h[|h| - 1].timestamp, h[|h| - 1].symbol)]
         else [])
  }

  /** There is one transition per state change. */
  lemma {:induction false} TransitionsCount(h: seq<StateEntry>)
    decreases |h|
    ensures |TransitionsOf(h)| == |ChangeIndices(States(h))|
  {
    if |h| >= 2 {
      var t := h[..|h| - 1];
      TransitionsCount(t);
      assert States(h)[..|h| - 1] == States(t);
    }
  }

  /**
   * The k-th transition goes from the state before the k-th change to the
   * state after it, and carries the time and symbol of the entry that changed.
   */
  lemma {:induction false} TransitionsAreChanges(h: seq<StateEntry>, k: nat)
    requires k < |ChangeIndices(States(h))|
    decreases |h|
    ensures ChangeAt(h, k)
  {
    var t := h[..|h| - 1];
    StatesSnoc(h);
    if k < |ChangeIndices(States(t))| {
      TransitionsAreChanges(t, k);
      TransitionsKeep(h, k);
    } else {
      TransitionsCount(t);
      TransitionLast(h, k);
    }
  }

  /** The k-th transition of h goes across the k-th change of its states. */
  predicate ChangeAt(h: seq<StateEntry>, k: nat)
  {
    var c := ChangeIndices(States(h));
    k < |c| && k < |TransitionsOf(h)|
    && TransitionsOf(h)[k] == Transition(h[c[k] - 1].state, h[c[k]].state, h[c[k]].timestamp, h[c[k]].symbol)
  }

  /** The states of the entries' front are the front of their states. */
  lemma StatesSnoc(h: seq<StateEntry>)
    requires |h| > 0
    ensures States(h)[..|h| - 1] == States(h[..|h| - 1])
  {
  }

  /** A transition of the entries' front is the same transition of all the entries. */
  lemma TransitionsKeep(h: seq<StateEntry>, k: nat)
    requires |h| > 0 && States(h)[..|h| - 1] == States(h[..|h| - 1])
    requires ChangeAt(h[..|h| - 1], k)
    ensures ChangeAt(h, k)
  {
    var t := h[..|h| - 1];
    var j := ChangeIndices(States(t))[k];
    assert ChangeIndices(States(h))[k] == j && 1 <= j < |t|;
    assert t[j] == h[j] && t[j - 1] == h[j - 1];
  }

  /** The last change of the entries is at the last entry, and its transition is the last one. */
  lemma TransitionLast(h: seq<StateEntry>, k: nat)
    requires |h| > 0 && States(h)[..|h| - 1] == States(h[..|h| - 1])
    requires k < |ChangeIndices(States(h))| && k >= |ChangeIndices(States(h[..|h| - 1]))|
    requires |TransitionsOf(h[..|h| - 1])| == |ChangeIndices(States(h[..|h| - 1]))|
    ensures ChangeAt(h, k)
  {
  }

  // -------------------------------------------------------------- agents

  /** The record an agent has once registered: the existing one, or a fresh one of its inferred type. */
  function RegisteredRecord(c: Config, agents: map<string, AgentRecord>, n: string): (r: AgentRecord)
    ensures n in agents ==> r == agents[n]
    ensures n !in agents ==> r == FreshRecord(n, InferAgentType(n), c.initialWeight)
  {
    if n in agents then agents[n] else FreshRecord(n, InferAgentType(n), c.initialWeight)
  }

  /** The agents after registering each predicting agent and recording its prediction, in order. */
  function Recorded(c: Config, agents: map<string, AgentRecord>, ps: seq<(string, real)>): map<string, AgentRecord>
    decreases |ps|
  {
    if |ps| == 0 then agents
    else
      var m := Recorded(c, agents, ps[..|ps| - 1]);
      var n := ps[|ps| - 1].0;
      m[n := RegisteredRecord(c, m, n).AddPrediction(ps[|ps| - 1].1)]
  }

  /** One step of the fold, on a prefix of the predictions. */
  lemma RecordedStep(c: Config, agents: map<string, AgentRecord>, names: seq<string>, ps: seq<(string, real)>, i: nat)
    requires i < |ps|
    ensures var m := Recorded(c, agents, ps[..i]);
      Recorded(c, agents, ps[..i + 1]) == m[ps[i].0 := RegisteredRecord(c, m, ps[i].0).AddPrediction(ps[i].1)]
    ensures var ns := RegisteredNames(names, ps[..i]);
      RegisteredNames(names, ps[..i + 1]) == if ps[i].0 in ns then ns else ns + [ps[i].0]
  {
    assert ps[..i + 1][..i] == ps[..i];
  }

  /** What `register_agent` leaves under the name is the registered record. */
  lemma RegisteredStep(c: Config, before: map<string, AgentRecord>, after: map<string, AgentRecord>, n: string, p: real)
    requires n in before ==> after == before
    requires n !in before ==> after == before[n := FreshRecord(n, InferAgentType(n), c.initialWeight)]
    ensures n in after && after[n] == RegisteredRecord(c, before, n)
    ensures after[n := after[n].AddPrediction(p)] == before[n := RegisteredRecord(c, before, n).AddPrediction(p)]
  {
  }

  /** The registration order after the same steps: each new name is appended. */
  function RegisteredNames(names: seq<string>, ps: seq<(string, real)>): seq<string>
    decreases |ps|
  {
    if |ps| == 0 then names
    else
      var ns := RegisteredNames(names, ps[..|ps| - 1]);
      if ps[|ps| - 1].0 in ns then ns else ns + [ps[|ps| - 1].0]
  }

  /** Afterwards exactly the old agents and the predicting agents are known. */
  lemma {:induction false} RecordedKeys(c: Config, agents: map<string, AgentRecord>, ps: seq<(string, real)>, n: string)
    decreases |ps|
    ensures n in Recorded(c, agents, ps) <==> n in agents || n in Keys(ps)
  {
    if |ps| > 0 {
      RecordedKeys(c, agents, ps[..|ps| - 1], n);
      assert Keys(ps) == Keys(ps[..|ps| - 1]) + [ps[|ps| - 1].0];
    }
  }

  /** An agent that made no prediction keeps its record. */
  lemma {:induction false} RecordedUntouched(c: Config, agents: map<string, AgentRecord>, ps: seq<(string, real)>, n: string)
    requires n in agents && n !in Keys(ps)
    decreases |ps|
    ensures n in Recorded(c, agents, ps) && Recorded(c, agents, ps)[n] == agents[n]
  {
    if |ps| > 0 {
      assert Keys(ps) == Keys(ps[..|ps| - 1]) + [ps[|ps| - 1].0];
      RecordedUntouched(c, agents, ps[..|ps| - 1], n);
    }
  }

  /**
   * With distinct agent names, each predicting agent has its prediction
   * appended: to its old record if it was known, else to a fresh record of
   * its inferred type with the initial weight.
   */
  lemma {:induction false} RecordedPrediction(c: Config, agents: map<string, AgentRecord>, ps: seq<(string, real)>, i: nat)
    requires Unique(Keys(ps)) && i < |ps|
    decreases |ps|
    ensures var n := ps[i].0; var m := Recorded(c, agents, ps);
      n in m && m[n] == RegisteredRecord(c, agents, n).AddPrediction(ps[i].1)
  {
    var init := ps[..|ps| - 1];
    assert Keys(ps) == Keys(init) + [ps[|ps| - 1].0];
    if i == |ps| - 1 {
      assert ps[i].0 !in Keys(init);
      if ps[i].0 in agents {
        RecordedUntouched(c, agents, init, ps[i].0);
      } else {
        RecordedKeys(c, agents, init, ps[i].0);
      }
    } else {
      assert Keys(init) == Keys(ps)[..|ps| - 1];
      RecordedPrediction(c, agents, init, i);
      assert init[i] == ps[i];
      assert ps[i].0 != ps[|ps| - 1].0 by {
        assert Keys(ps)[i] == ps[i].0 && Keys(ps)[|ps| - 1] == ps[|ps| - 1].0;
      }
    }
  }

  /** The names list stays the dictionary's index once the new names are appended. */
  lemma {:induction false} RegisteredNamesIndex(c: Config, names: seq<string>, agents: map<string, AgentRecord>,
                                                ps: seq<(string, real)>, n: string)
    requires forall x :: x in agents <==> x in names
    decreases |ps|
    ensures n in RegisteredNames(names, ps) <==> n in Recorded(c, agents, ps)
  {
    if |ps| > 0 {
      RegisteredNamesIndex(c, names, agents, ps[..|ps| - 1], n);
      RegisteredNamesIndex(c, names, agents, ps[..|ps| - 1], ps[|ps| - 1].0);
    }
  }

  // ------------------------------------------------------------- summary

  /**
   * `_generate_summary`, with the number formatting left out; the spread
   * `weight_std` is carried as its square, the variance.
   */
  datatype Summary =
    | NoWeights
    | Described(marketState: Value, topAgent: string, topWeight: real, meanWeight: real, spreadVariance: real)

  /** `_generate_summary` as written: `np` is never imported, so any weight raises. */
  function GenerateSummaryAsWritten(marketState: Value, weights: seq<(string, real)>): (r: Result<string>)
    ensures |weights| == 0 ==> r == Ok("暂无智能体权重信息")
  {
    if |weights| == 0 then Ok("暂无智能体权重信息")
    else Err("NameError: name 'np' is not defined")
  }

  /** The missing import makes every non-empty summary fail. */
  lemma SummaryAsWrittenRaises(marketState: Value, weights: seq<(string, real)>)
    requires |weights| > 0
    ensures GenerateSummaryAsWritten(marketState, weights).Err?
  {
  }

  /**
   * `_generate_summary` with `numpy` imported: the first agent of maximal
   * weight, the mean weight, and the variance of the weights when there are
   * at least two (0 for a single weight).
   */
  function GenerateSummary(marketState: Value, weights: seq<(string, real)>): (s: Summary)
    ensures |weights| == 0 <==> s == NoWeights
    ensures s.Described? ==>
      s.marketState == marketState
      && (exists i :: 0 <= i < |weights| && FirstMaximum(weights, i)
            && s.topAgent == weights[i].0 && s.topWeight == weights[i].1)
      && s.meanWeight == Mean(Values(weights))
      && s.spreadVariance >= 0.0
      && (|weights| > 1 ==> s.spreadVariance == Variance(Values(weights)))
      && (|weights| == 1 ==> s.spreadVariance == 0.0)
  {
    if |weights| == 0 then NoWeights
    else
      var i := ArgMax(weights);
      var spread := if |weights| > 1 then Variance(Values(weights)) else 0.0;
      VarianceNonNegative(Values(weights));
      Described(marketState, weights[i].0, weights[i].1, Mean(Values(weights)), spread)
  }

  /** The mean weight never exceeds the top agent's weight. */
  lemma SummaryMeanBelowTop(marketState: Value, weights: seq<(string, real)>)
    requires |weights| > 0
    ensures var s := GenerateSummary(marketState, weights); s.meanWeight <= s.topWeight
  {
    var i := ArgMax(weights);
    MeanAtMost(Values(weights), weights[i].1);
  }

  // ---------------------------------------------------------- coordinator

  /** The result of `analyze_and_adjust`; time stamps are left out. */
  datatype Outcome =
    | Coordinated(symbol: string, marketState: Value, stateConfidence: Value, stateAnalysis: Analysis,
                  agentCount: nat, updatedWeights: seq<(string, real)>,
                  normalizedWeights: seq<(string, real)>, summary: Summary)
    | Failed(error: string)

  /** `update_weight` does not take the `market_state` keyword the coordinator passes. */
  const UnexpectedKeyword: string := "update_weight() got an unexpected keyword argument 'market_state'"

  /** `get_agent_state_performance`: the weight manager has no `analyze_state_performance`. */
  function AgentStatePerformance(agentName: string): (r: Result<Value>)
    ensures r.Err?
  {
    Err("'AdaptiveWeightManager' object has no attribute 'analyze_state_performance'")
  }

  const DefaultManagerError := "TypeError: AdaptiveWeightManager.__init__() got an unexpected keyword argument 'enable_market_state'"

  class Coordinator {
    var wm: AdaptiveWeightManager
    var stateHistory: seq<StateEntry>
    /** Every entry ever recorded, oldest first. */
    ghost var log: seq<StateEntry>

    /** The manager is consistent and the history is the most recent part of the log. */
    ghost predicate Valid()
      reads this, wm
    {
      wm.Valid() && stateHistory == TakeLast(log, HistoryCap)
    }

    /** `StateAwareCoordinator(weight_manager)` with a manager supplied. */
    constructor (manager: AdaptiveWeightManager)
      requires manager.Valid()
      ensures Valid() && wm == manager && stateHistory == [] && log == []
    {
      wm := manager;
      stateHistory := [];
      log := [];
    }

    /**
     * `StateAwareCoordinator(weight_manager)` for either argument: a supplied
     * manager is used; without one the default manager is built with the
     * keyword `enable_market_state`, which the manager's constructor does not
     * take, so the call raises TypeError.
     */
    static method Create(manager: Option<AdaptiveWeightManager>) returns (r: Result<Coordinator>)
      requires manager.Some? ==> manager.value.Valid()
      ensures r.Err? <==> manager.None?
      ensures manager.None? ==> r == Err(DefaultManagerError)
      ensures r.Ok? ==>
        fresh(r.value) && r.value.Valid() && r.value.wm == manager.value
        && r.value.stateHistory == [] && r.value.log == []
    {
      if manager.None? {
        return Err(DefaultManagerError);
      }
      var c := new Coordinator(manager.value);
      r := Ok(c);
    }

    /**
     * `_analyze_market_state`: a recognised result is returned and its state
     * appended to the history, which keeps the last 1000 entries; a failure
     * is reported as the unknown state and leaves the history alone.
     */
    method AnalyzeMarketState(symbol: string, recognised: Result<Analysis>, now: int) returns (result: Analysis)
      requires Valid()
      modifies this`stateHistory, this`log
      ensures Valid()
      ensures recognised.Ok? ==>
        result == recognised.value
        && log == old(log) + [EntryOf(symbol, recognised.value, now)]
        && stateHistory == AppendCapped(old(stateHistory), EntryOf(symbol, recognised.value, now), HistoryCap)
      ensures recognised.Err? ==>
        result == FailedAnalysis(recognised.msg) && stateHistory == old(stateHistory) && log == old(log)
    {
      if recognised.Ok? {
        result := recognised.value;
        var entry := EntryOf(symbol, result, now);
        CappedSuffix(log, entry, HistoryCap);
        stateHistory := AppendCapped(stateHistory, entry, HistoryCap);
        log := log + [entry];
      } else {
        result := FailedAnalysis(recognised.msg);
      }
    }

    /**
     * `analyze_and_adjust`: every predicting agent is registered under its
     * inferred type and its prediction recorded; the weight update then
     * raises on its unsupported keyword, so any prediction makes the result
     * a failure (with the registrations kept), and only an empty set of
     * predictions yields a coordinated result.
     */
    method AnalyzeAndAdjust(symbol: string, recognised: Result<Analysis>, predictions: seq<(string, real)>, now: int)
      returns (out: Outcome)
      requires Valid()
      modifies this`stateHistory, this`log, wm`names, wm`agents
      ensures Valid()
      ensures recognised.Ok? ==> stateHistory == AppendCapped(old(stateHistory), EntryOf(symbol, recognised.value, now), HistoryCap)
      ensures recognised.Err? ==> stateHistory == old(stateHistory)
      ensures wm.agents == Recorded(wm.config, old(wm.agents), predictions)
      ensures wm.names == RegisteredNames(old(wm.names), predictions)
      ensures |predictions| > 0 ==> out == Failed(UnexpectedKeyword)
      ensures |predictions| == 0 ==>
        var analysis := if recognised.Ok? then recognised.value else FailedAnalysis(recognised.msg);
        var state := GetOr(analysis, "market_state", Str(UnknownState));
        out == Coordinated(symbol, state, GetOr(analysis, "confidence", Num(0.0)), analysis, 0, [],
                           wm.NormalizedWeights(), NoWeights)
    {
      var analysis := AnalyzeMarketState(symbol, recognised, now);
      var state := GetOr(analysis, "market_state", Str(UnknownState));
      var confidence := GetOr(analysis, "confidence", Num(0.0));
      RecordPredictions(predictions);
      if |predictions| > 0 {
        out := Failed(UnexpectedKeyword);
      } else {
        out := Coordinated(symbol, state, confidence, analysis, 0, [], wm.NormalizedWeights(),
                           GenerateSummary(state, []));
      }
    }

    /** The first loop of `analyze_and_adjust`: register each predicting agent and record its prediction. */
    method RecordPredictions(predictions: seq<(string, real)>)
      requires wm.Valid()
      modifies wm`names, wm`agents
      ensures wm.Valid()
      ensures wm.agents == Recorded(wm.config, old(wm.agents), predictions)
      ensures wm.names == RegisteredNames(old(wm.names), predictions)
    {
      var i := 0;
      while i < |predictions|
        invariant 0 <= i <= |predictions|
        invariant wm.Valid() && wm.config == old(wm.config)
        invariant wm.agents == Recorded(wm.config, old(wm.agents), predictions[..i])
        invariant wm.names == RegisteredNames(old(wm.names), predictions[..i])
      {
        var name := predictions[i].0;
        ghost var before := wm.agents;
        assert name in before <==> name in wm.names;
        wm.RegisterAgent(name, InferAgentType(name));
        ghost var registered := wm.agents;
        var ok := wm.RecordPrediction(name, predictions[i].1);
        RegisteredStep(wm.config, before, registered, name, predictions[i].1);
        RecordedStep(wm.config, old(wm.agents), old(wm.names), predictions, i);
        i := i + 1;
      }
      assert predictions[..i] == predictions;
    }

    /**
     * `get_state_transitions`: nothing with fewer than two entries, else the
     * transitions within the last `lookback` entries (Python's `[-lookback:]`).
     */
    method GetStateTransitions(lookback: int) returns (ts: seq<Transition>)
      ensures |stateHistory| < 2 ==> ts == []
      ensures |stateHistory| >= 2 ==> ts == TransitionsOf(TakeLast(stateHistory, lookback))
    {
      if |stateHistory| < 2 {
        return [];
      }
      var recent := TakeLast(stateHistory, lookback);
      ts := [];
      var i := 1;
      while i < |recent|
        invariant 1 <= i
        invariant i <= |recent| || recent == []
        invariant ts == TransitionsOf(if recent == [] then [] else recent[..i])
      {
        assert recent[..i + 1][..i] == recent[..i];
        if recent[i - 1].state != recent[i].state {
          ts := ts + [Transition(recent[i - 1].state, recent[i].state, recent[i].timestamp, recent[i].symbol)];
        }
        i := i + 1;
      }
      assert recent != [] ==> recent[..i] == recent;
    }
  }
}
