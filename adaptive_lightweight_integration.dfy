/**
 * The lightweight integrator: an adaptive system plus its own name-to-type
 * mapping of the agents it knows. Predictions from agents it has not seen
 * register them as analysts; market results update only mapped agents; a
 * summary reports the type counts and the spread of the current weights.
 */
module AdaptiveLightweightIntegration {
  import opened Common
  import opened WeightManager
  import opened AdaptivePackage

  // ------------------------------------------------------- specifications

  /** One step of the prediction loop: an agent missing from the system is registered as an analyst, then its prediction is recorded. */
  function LearnStep(m: map<string, AgentRecord>, e: (string, real), initialWeight: real): (m': map<string, AgentRecord>)
    ensures m'.Keys == m.Keys + {e.0}
  {
    var base := if e.0 in m then m[e.0] else FreshRecord(e.0, "analyst", initialWeight);
    m[e.0 := base.AddPrediction(e.1)]
  }

  /** The agents after the prediction loop. */
  function Learned(m: map<string, AgentRecord>, ps: seq<(string, real)>, initialWeight: real): (m': map<string, AgentRecord>)
    ensures forall n :: n in m' <==> n in m || HasKey(ps, n)
    decreases |ps|
  {
    if |ps| == 0 then m
    else
      var front := ps[..|ps| - 1];
      var e := ps[|ps| - 1];
      LastSplit(ps);
      assert forall n :: HasKey(ps, n) <==> HasKey(front, n) || n == e.0 by {
        forall n ensures HasKey(ps, n) <==> HasKey(front, n) || n == e.0 {
          HasKeyConcat(front, [e], n);
          HasKeySingle([e], n);
        }
      }
      LearnStep(Learned(m, front, initialWeight), e, initialWeight)
  }

  /**
   * With distinct keys, an agent that predicted holds its old record, or a
   * fresh analyst record when it was unknown, with exactly its prediction
   * added; every other agent is unchanged.
   */
  lemma {:induction false} LearnedRead(m: map<string, AgentRecord>, ps: seq<(string, real)>, initialWeight: real, n: string)
    requires Unique(Keys(ps)) && (n in m || HasKey(ps, n))
    ensures Learned(m, ps, initialWeight)[n] == match Get(ps, n)
      case Some(v) => (if n in m then m[n] else FreshRecord(n, "analyst", initialWeight)).AddPrediction(v)
      case None => m[n]
    decreases |ps|
  {
    if |ps| > 0 {
      var front := ps[..|ps| - 1];
      var e := ps[|ps| - 1];
      LastSplit(ps);
      forall a, b | 0 <= a < b < |front| ensures Keys(front)[a] != Keys(front)[b] {
        assert Keys(ps)[a] != Keys(ps)[b];
      }
      assert !HasKey(front, e.0) by {
        forall a | 0 <= a < |front| ensures front[a].0 != e.0 {
          assert Keys(ps)[a] != Keys(ps)[|ps| - 1];
        }
      }
      GetConcat(front, [e], n);
      HasKeyConcat(front, [e], n);
      HasKeySingle([e], n);
      if n != e.0 {
        LearnedRead(m, front, initialWeight, n);
      } else {
        assert Get([e], n) == Some(e.1);
        if n in m {
          LearnedRead(m, front, initialWeight, n);
        }
        assert n in Learned(m, front, initialWeight) <==> n in m;
      }
    }
  }

  /** The mapping after the prediction loop: each key it lacked is added with the type "analyst". */
  function AnalystsAdded(mapping: seq<(string, string)>, ps: seq<(string, real)>): (r: seq<(string, string)>)
    ensures forall n :: HasKey(r, n) <==> HasKey(mapping, n) || HasKey(ps, n)
    ensures forall n :: HasKey(mapping, n) ==> Get(r, n) == Get(mapping, n)
    ensures forall n :: !HasKey(mapping, n) && HasKey(ps, n) ==> Get(r, n) == Some("analyst")
    ensures Unique(Keys(mapping)) ==> Unique(Keys(r))
    decreases |ps|
  {
    if |ps| == 0 then mapping
    else
      var front := ps[..|ps| - 1];
      var e := ps[|ps| - 1];
      var p := AnalystsAdded(mapping, front);
      LastSplit(ps);
      assert forall n :: HasKey(ps, n) <==> HasKey(front, n) || n == e.0 by {
        forall n ensures HasKey(ps, n) <==> HasKey(front, n) || n == e.0 {
          HasKeyConcat(front, [e], n);
          HasKeySingle([e], n);
        }
      }
      if HasKey(p, e.0) then p
      else
        assert forall n :: (Get(Put(p, e.0, "analyst"), n) == (if n == e.0 then Some("analyst") else Get(p, n))
          && (HasKey(Put(p, e.0, "analyst"), n) <==> HasKey(p, n) || n == e.0)) by {
          forall n ensures Get(Put(p, e.0, "analyst"), n) == (if n == e.0 then Some("analyst") else Get(p, n))
            && (HasKey(Put(p, e.0, "analyst"), n) <==> HasKey(p, n) || n == e.0) {
            PutGet(p, e.0, "analyst", n);
          }
        }
        assert Unique(Keys(p)) ==> Unique(Keys(Put(p, e.0, "analyst"))) by {
          if Unique(Keys(p)) {
            PutUnique(p, e.0, "analyst");
          }
        }
        Put(p, e.0, "analyst")
  }

  /** One step of the mapping in the prediction loop: an unmapped name is added as an analyst. */
  function MappingStep(mapping: seq<(string, string)>, name: string): (r: seq<(string, string)>)
    ensures forall n :: HasKey(r, n) <==> HasKey(mapping, n) || n == name
  {
    if HasKey(mapping, name) then mapping
    else
      assert forall n :: HasKey(Put(mapping, name, "analyst"), n) <==> HasKey(mapping, n) || n == name by {
        forall n ensures HasKey(Put(mapping, name, "analyst"), n) <==> HasKey(mapping, n) || n == name {
          PutGet(mapping, name, "analyst", n);
        }
      }
      Put(mapping, name, "analyst")
  }

  /** One more pair for the registration loop: the system registers its name unless it knows it already. */
  lemma RegisteredNext(m: map<string, AgentRecord>, list: seq<(string, string)>, i: nat, initialWeight: real)
    requires i < |list|
    ensures Registered(m, list[..i + 1], initialWeight) ==
      var mf := Registered(m, list[..i], initialWeight);
      if list[i].0 in mf then mf else mf[list[i].0 := FreshRecord(list[i].0, list[i].1, initialWeight)]
  {
    assert list[..i + 1][..i] == list[..i];
  }

  /** One more pair for the registration loop: the mapping takes `mapping[name] = type`. */
  lemma PutAllNext(mapping: seq<(string, string)>, list: seq<(string, string)>, i: nat)
    requires i < |list|
    ensures PutAll(mapping, list[..i + 1]) == Put(PutAll(mapping, list[..i]), list[i].0, list[i].1)
  {
    assert list[..i + 1][..i] == list[..i];
  }

  /** A second update of the same key replaces the first. */
  lemma Overwrite(m: map<string, AgentRecord>, k: string, a: AgentRecord, b: AgentRecord)
    ensures m[k := a][k := b] == m[k := b]
  {
  }

  /** One more prediction: the agents take one more `LearnStep`. */
  lemma LearnedNext(m: map<string, AgentRecord>, ps: seq<(string, real)>, i: nat, initialWeight: real)
    requires i < |ps|
    ensures Learned(m, ps[..i + 1], initialWeight) == LearnStep(Learned(m, ps[..i], initialWeight), ps[i], initialWeight)
  {
    assert ps[..i + 1][..i] == ps[..i];
  }

  /** One more prediction: the mapping takes one more `MappingStep`. */
  lemma AnalystsAddedNext(mapping: seq<(string, string)>, ps: seq<(string, real)>, i: nat)
    requires i < |ps|
    ensures AnalystsAdded(mapping, ps[..i + 1]) == MappingStep(AnalystsAdded(mapping, ps[..i]), ps[i].0)
  {
    assert ps[..i + 1][..i] == ps[..i];
  }

  /** The names the update loop acts on: those present in the mapping, in the given order. */
  function MappedOnly(names: seq<string>, mapping: seq<(string, string)>): (r: seq<string>)
    ensures forall x :: x in r <==> x in names && HasKey(mapping, x)
    ensures |r| <= |names|
    decreases |names|
  {
    if |names| == 0 then []
    else
      var front := names[..|names| - 1];
      var x := names[|names| - 1];
      LastSplit(names);
      MappedOnly(front, mapping) + if HasKey(mapping, x) then [x] else []
  }

  /** One more name: it is kept exactly when the mapping holds it. */
  lemma MappedOnlySnoc(names: seq<string>, x: string, mapping: seq<(string, string)>)
    ensures MappedOnly(names + [x], mapping) == MappedOnly(names, mapping) + if HasKey(mapping, x) then [x] else []
  {
    assert (names + [x])[..|names|] == names;
  }

  /** When every name is mapped, the update loop acts on all of them. */
  lemma {:induction false} MappedOnlyAll(names: seq<string>, mapping: seq<(string, string)>)
    requires forall i :: 0 <= i < |names| ==> HasKey(mapping, names[i])
    ensures MappedOnly(names, mapping) == names
    decreases |names|
  {
    if |names| > 0 {
      var front := names[..|names| - 1];
      MappedOnlyAll(front, mapping);
      LastSplit(names);
    }
  }

  /** `mapping[k] = v` keeps the keys distinct and adds exactly k. */
  lemma MappingPut(mapping: seq<(string, string)>, k: string, v: string)
    requires Unique(Keys(mapping))
    ensures Unique(Keys(Put(mapping, k, v)))
    ensures forall n :: HasKey(Put(mapping, k, v), n) <==> HasKey(mapping, n) || n == k
    ensures KeySet(Put(mapping, k, v)) == KeySet(mapping) + {k}
  {
    PutUnique(mapping, k, v);
    forall n ensures HasKey(Put(mapping, k, v), n) <==> HasKey(mapping, n) || n == k {
      PutGet(mapping, k, v, n);
    }
  }

  /** What `get_system_summary` reports; min and max are absent without agents. */
  /** `get_weight` on a records dictionary: the record's weight, 1.0 for an unknown agent. */
  function WeightOf(agents: map<string, AgentRecord>, name: string): real
  {
    if name in agents then agents[name].currentWeight else 1.0
  }

  /** The weight of each mapped agent, in mapping order. */
  function WeightsOf(mapping: seq<(string, string)>, agents: map<string, AgentRecord>): (w: seq<real>)
    ensures |w| == |mapping|
  {
    seq(|mapping|, k requires 0 <= k < |mapping| => WeightOf(agents, mapping[k].0))
  }

  datatype Summary = Summary(totalAgents: nat, agentTypes: seq<(string, int)>, averageWeight: real, weightVariance: real,
                             minWeight: Option<real>, maxWeight: Option<real>)

  // --------------------------------------------------------- the integrator

  class LightweightAdaptiveIntegrator {
    const adaptive: AdaptiveSystem
    var agentMapping: seq<(string, string)>

    /**
     * The system is consistent, the mapping (a dictionary) has distinct keys,
     * and the mapping and the system know the same agents.
     */
    ghost predicate Valid()
      reads this, adaptive, adaptive.weightManager
    {
      adaptive.Valid() && Unique(Keys(agentMapping)) && KeySet(agentMapping) == adaptive.weightManager.agents.Keys
    }

    /** A fresh adaptive system with default settings and an empty mapping. */
    constructor ()
      ensures Valid() && fresh(adaptive) && fresh(adaptive.weightManager)
      ensures agentMapping == [] && adaptive.weightManager.agents == map[] && adaptive.weightManager.history == []
    {
      adaptive := new AdaptiveSystem(None);
      agentMapping := [];
    }

    /** Putting a name into a mapping whose keys are the agents' adds it as registering adds it to the agents. */
    static lemma RegisteredKeys(mapping: seq<(string, string)>, name: string, agentType: string,
                                before: set<string>, after: set<string>)
      requires Unique(Keys(mapping)) && KeySet(mapping) == before && after == before + {name}
      ensures Unique(Keys(Put(mapping, name, agentType))) && KeySet(Put(mapping, name, agentType)) == after
    {
      MappingPut(mapping, name, agentType);
    }

    /** One pass of the registration loop: the system registers the name (if new), the mapping takes the type. */
    method RegisterOne(name: string, agentType: string)
      requires Valid()
      modifies this, adaptive.weightManager
      ensures Valid()
      ensures adaptive.weightManager.agents ==
        if name in old(adaptive.weightManager.agents) then old(adaptive.weightManager.agents)
        else old(adaptive.weightManager.agents)[name := FreshRecord(name, agentType, adaptive.config.initialWeight)]
      ensures agentMapping == Put(old(agentMapping), name, agentType)
      ensures adaptive.weightManager.history == old(adaptive.weightManager.history)
    {
      ghost var m0 := adaptive.weightManager.agents;
      var _ := adaptive.RegisterAgent(name, agentType);
      assert adaptive.weightManager.agents.Keys == m0.Keys + {name};
      RegisteredKeys(agentMapping, name, agentType, m0.Keys, adaptive.weightManager.agents.Keys);
      agentMapping := Put(agentMapping, name, agentType);
    }

    /**
     * `register_existing_agents`: every pair is registered with the system
     * (which keeps the first type of a repeated name) and written into the
     * mapping (which keeps the last).
     */
    method RegisterExistingAgents(agentInfo: seq<(string, string)>)
      requires Valid()
      modifies this, adaptive.weightManager
      ensures Valid()
      ensures adaptive.weightManager.agents == Registered(old(adaptive.weightManager.agents), agentInfo, adaptive.config.initialWeight)
      ensures agentMapping == PutAll(old(agentMapping), agentInfo)
      ensures adaptive.weightManager.history == old(adaptive.weightManager.history)
    {
      var i := 0;
      while i < |agentInfo|
        invariant 0 <= i <= |agentInfo|
        invariant Valid()
        invariant adaptive.weightManager.agents ==
          Registered(old(adaptive.weightManager.agents), agentInfo[..i], adaptive.config.initialWeight)
        invariant agentMapping == PutAll(old(agentMapping), agentInfo[..i])
        invariant adaptive.weightManager.history == old(adaptive.weightManager.history)
      {
        RegisteredNext(old(adaptive.weightManager.agents), agentInfo, i, adaptive.config.initialWeight);
        PutAllNext(old(agentMapping), agentInfo, i);
        RegisterOne(agentInfo[i].0, agentInfo[i].1);
        i := i + 1;
      }
      assert agentInfo[..i] == agentInfo;
    }

    /** One pass of the prediction loop: an unmapped agent is registered as an analyst, then its prediction is recorded. */
    method LearnOne(name: string, prediction: real)
      requires Valid()
      modifies this, adaptive.weightManager
      ensures Valid()
      ensures adaptive.weightManager.agents == LearnStep(old(adaptive.weightManager.agents), (name, prediction), adaptive.config.initialWeight)
      ensures agentMapping == MappingStep(old(agentMapping), name)
      ensures adaptive.weightManager.history == old(adaptive.weightManager.history)
    {
      ghost var m0 := adaptive.weightManager.agents;
      if !HasKey(agentMapping, name) {
        assert name !in m0;
        ghost var rec := FreshRecord(name, "analyst", adaptive.config.initialWeight);
        MappingPut(agentMapping, name, "analyst");
        var _ := adaptive.RegisterAgent(name, "analyst");
        agentMapping := Put(agentMapping, name, "analyst");
        assert adaptive.weightManager.agents == m0[name := rec];
        var _ := adaptive.RecordPrediction(name, prediction);
        Overwrite(m0, name, rec, rec.AddPrediction(prediction));
      } else {
        assert name in m0;
        var _ := adaptive.RecordPrediction(name, prediction);
      }
    }

    /**
     * `process_agent_predictions`: no predictions is an error that changes
     * nothing; otherwise every unmapped agent is registered as an analyst
     * before its prediction is recorded, and the weighted decision is returned.
     */
    method ProcessAgentPredictions(predictions: seq<(string, real)>, context: string) returns (r: Result<Decision>)
      requires Valid()
      modifies this, adaptive.weightManager
      ensures Valid()
      ensures |predictions| == 0 ==>
        r == Err("No predictions provided")
        && agentMapping == old(agentMapping) && adaptive.weightManager.agents == old(adaptive.weightManager.agents)
      ensures |predictions| > 0 ==>
        adaptive.weightManager.agents == Learned(old(adaptive.weightManager.agents), predictions, adaptive.config.initialWeight)
        && agentMapping == AnalystsAdded(old(agentMapping), predictions)
        && r == Ok(adaptive.WeightedDecision(predictions))
      ensures adaptive.weightManager.history == old(adaptive.weightManager.history)
    {
      if |predictions| == 0 {
        return Err("No predictions provided");
      }
      var i := 0;
      while i < |predictions|
        invariant 0 <= i <= |predictions|
        invariant Valid()
        invariant adaptive.weightManager.agents ==
          Learned(old(adaptive.weightManager.agents), predictions[..i], adaptive.config.initialWeight)
        invariant agentMapping == AnalystsAdded(old(agentMapping), predictions[..i])
        invariant adaptive.weightManager.history == old(adaptive.weightManager.history)
      {
        LearnedNext(old(adaptive.weightManager.agents), predictions, i, adaptive.config.initialWeight);
        AnalystsAddedNext(old(agentMapping), predictions, i);
        LearnOne(predictions[i].0, predictions[i].1);
        i := i + 1;
      }
      assert predictions[..i] == predictions;
      r := Ok(adaptive.WeightedDecision(predictions));
    }

    /**
     * `update_with_market_result`: `update_with_result` with no prediction for
     * each given name (every mapped name when none are given) that the mapping
     * holds; the count of updated agents is returned. The mapping does not
     * change while the loop runs, so filtering the names first acts on the
     * same agents in the same order.
     */
    method UpdateWithMarketResult(actualChange: real, agentNames: Option<seq<string>>) returns (updatedCount: nat)
      requires Valid()
      modifies adaptive.weightManager
      ensures Valid()
      ensures var names := if agentNames.Some? then agentNames.value else Keys(agentMapping);
        (adaptive.weightManager.agents, adaptive.weightManager.history) ==
          UpdatedAll(adaptive.config, (old(adaptive.weightManager.agents), old(adaptive.weightManager.history)),
                     MappedOnly(names, agentMapping), actualChange)
        && updatedCount == |MappedOnly(names, agentMapping)|
      ensures agentNames.None? ==> updatedCount == |agentMapping|
      ensures adaptive.weightManager.names == old(adaptive.weightManager.names)
    {
      var names := if agentNames.Some? then agentNames.value else Keys(agentMapping);
      var targets := MappedOnly(names, agentMapping);
      adaptive.UpdateEach(targets, actualChange);
      updatedCount := |targets|;
      if agentNames.None? {
        MappedOnlyAll(names, agentMapping);
      }
    }

    /** The counting loop of `get_system_summary`: each type's number of mapped agents, in order of first occurrence. */
    method TypeCounts() returns (counts: seq<(string, int)>)
      ensures counts == Counts(Values(agentMapping))
      ensures TotalCount(counts) == |agentMapping|
      ensures forall t :: GetOr(counts, t, 0) == Count(Values(agentMapping), t)
    {
      var types := Values(agentMapping);
      counts := [];
      var i := 0;
      while i < |types|
        invariant 0 <= i <= |types|
        invariant counts == Counts(types[..i])
      {
        assert types[..i + 1][..i] == types[..i];
        counts := Bump(counts, types[i]);
        i := i + 1;
      }
      assert types[..i] == types;
      CountsTotal(types);
      forall t ensures GetOr(counts, t, 0) == Count(types, t) {
        CountsValue(types, t);
      }
    }

    /** The weight loop of `get_system_summary`: the current weight of each mapped agent, in mapping order. */
    method MappedWeights() returns (weights: seq<real>)
      ensures |weights| == |agentMapping|
      ensures forall k :: 0 <= k < |agentMapping| ==> weights[k] == adaptive.weightManager.GetWeight(agentMapping[k].0)
      ensures weights == WeightsOf(agentMapping, adaptive.weightManager.agents)
    {
      weights := [];
      var j := 0;
      while j < |agentMapping|
        invariant 0 <= j <= |agentMapping|
        invariant |weights| == j
        invariant forall k :: 0 <= k < j ==> weights[k] == adaptive.weightManager.GetWeight(agentMapping[k].0)
      {
        weights := weights + [adaptive.weightManager.GetWeight(agentMapping[j].0)];
        j := j + 1;
      }
    }

    /**
     * `get_system_summary`: the number of mapped agents, the type counts, and
     * the mean, variance, minimum and maximum of the mapped agents' weights;
     * without agents the mean and variance stay 0 and there is no minimum or
     * maximum. `weight_std` is carried as its square, the variance.
     */
    method GetSystemSummary() returns (s: Summary)
      ensures s.totalAgents == |agentMapping|
      ensures s.agentTypes == Counts(Values(agentMapping))
      ensures TotalCount(s.agentTypes) == s.totalAgents
      ensures s.minWeight.Some? <==> |agentMapping| > 0
      ensures s.maxWeight.Some? <==> |agentMapping| > 0
      ensures |agentMapping| == 0 ==> s.averageWeight == 0.0 && s.weightVariance == 0.0
      ensures |agentMapping| > 0 ==>
        var w := WeightsOf(agentMapping, adaptive.weightManager.agents);
        s.averageWeight == Mean(w) && s.weightVariance == Variance(w) && s.weightVariance >= 0.0
        && (exists i :: 0 <= i < |agentMapping| && s.minWeight.value == w[i])
        && (exists i :: 0 <= i < |agentMapping| && s.maxWeight.value == w[i])
        && (forall i :: 0 <= i < |agentMapping| ==>
              s.minWeight.value <= adaptive.weightManager.GetWeight(agentMapping[i].0) <= s.maxWeight.value)
        && s.minWeight.value <= s.averageWeight <= s.maxWeight.value
    {
      var counts := TypeCounts();
      var weights := MappedWeights();
      if |weights| > 0 {
        var lo := SeqMin(weights);
        var hi := SeqMax(weights);
        MeanBounds(weights, lo, hi);
        VarianceNonNegative(weights);
        s := Summary(|agentMapping|, counts, Mean(weights), Variance(weights), Some(lo), Some(hi));
      } else {
        s := Summary(|agentMapping|, counts, 0.0, 0.0, None, None);
      }
    }
  }

  /** A name registered twice keeps the first type in the system but the last one in the mapping. */
  lemma RepeatedNameTypes(m: map<string, AgentRecord>, mapping: seq<(string, string)>, n: string, t1: string, t2: string, w: real)
    requires n !in m
    ensures Registered(m, [(n, t1), (n, t2)], w)[n].agentType == t1
    ensures Get(PutAll(mapping, [(n, t1), (n, t2)]), n) == Some(t2)
  {
    var list := [(n, t1), (n, t2)];
    assert Get(list, n) == Some(t1);
    assert list[..1] == [(n, t1)];
    assert PutAll(mapping, list) == Put(PutAll(mapping, list[..1]), n, t2);
  }
}
