/**
 * The adaptive system's configuration record: its defaults, the per-layer
 * table, the dictionary view written to disk and the rebuild from that
 * dictionary (the keyword-argument constructor of the dataclass).
 */
module AdaptiveConfig {
  import opened Common

  datatype Config = Config(
    initialWeight: real,
    minWeight: real,
    maxWeight: real,
    learningRate: real,
    weightDecay: real,
    errorWindowSize: int,
    recentWeightFactor: real,
    layerConfigs: seq<(string, seq<(string, Value)>)>,
    enableAdaptiveLearning: bool,
    enableWeightNormalization: bool,
    logLevel: string)

  function LayerEntry(speed: real, lo: real, hi: real, metric: string): seq<(string, Value)>
  {
    [("adjust_speed", Num(speed)), ("min_weight", Num(lo)), ("max_weight", Num(hi)),
     ("error_metric", Str(metric))]
  }

  /** The default `layer_configs` table: four layers, each with the same four keys. */
  function DefaultLayerConfigs(): (r: seq<(string, seq<(string, Value)>)>)
    ensures Keys(r) == ["analyst", "researcher", "debator", "trader"]
    ensures forall i :: 0 <= i < |r| ==>
      Keys(r[i].1) == ["adjust_speed", "min_weight", "max_weight", "error_metric"]
  {
    [("analyst", LayerEntry(0.3, 0.2, 3.0, "mape")),
     ("researcher", LayerEntry(0.5, 0.1, 2.5, "binary")),
     ("debator", LayerEntry(0.2, 0.3, 2.0, "consistency")),
     ("trader", LayerEntry(0.1, 0.5, 4.0, "pnl"))]
  }

  /** `AdaptiveConfig()`. */
  function Default(): (c: Config)
    ensures c.initialWeight == 1.0 && c.minWeight == 0.1 && c.maxWeight == 5.0
    ensures c.learningRate == 0.3 && c.weightDecay == 0.99 && c.errorWindowSize == 20
    ensures c.enableAdaptiveLearning && c.enableWeightNormalization
    ensures c.minWeight <= c.initialWeight <= c.maxWeight
  {
    Config(1.0, 0.1, 5.0, 0.3, 0.99, 20, 2.0, DefaultLayerConfigs(), true, true, "INFO")
  }

  /** The public field names, in declaration order. */
  const FieldNames: seq<string> := [
    "initial_weight", "min_weight", "max_weight", "learning_rate", "weight_decay",
    "error_window_size", "recent_weight_factor", "layer_configs",
    "enable_adaptive_learning", "enable_weight_normalization", "log_level"]

  function LayersToValue(ls: seq<(string, seq<(string, Value)>)>): (v: seq<(string, Value)>)
    ensures |v| == |ls|
    ensures forall i :: 0 <= i < |ls| ==> v[i] == (ls[i].0, Dict(ls[i].1))
  {
    seq(|ls|, i requires 0 <= i < |ls| => (ls[i].0, Dict(ls[i].1)))
  }

  /** `to_dict`: every public field under its own name, in declaration order. */
  function ToDict(c: Config): (d: seq<(string, Value)>)
    ensures |d| == |FieldNames|
    ensures forall i :: 0 <= i < |d| ==> d[i].0 == FieldNames[i]
  {
    [("initial_weight", Num(c.initialWeight)),
     ("min_weight", Num(c.minWeight)),
     ("max_weight", Num(c.maxWeight)),
     ("learning_rate", Num(c.learningRate)),
     ("weight_decay", Num(c.weightDecay)),
     ("error_window_size", Int(c.errorWindowSize)),
     ("recent_weight_factor", Num(c.recentWeightFactor)),
     ("layer_configs", Dict(LayersToValue(c.layerConfigs))),
     ("enable_adaptive_learning", Bool(c.enableAdaptiveLearning)),
     ("enable_weight_normalization", Bool(c.enableWeightNormalization)),
     ("log_level", Str(c.logLevel))]
  }

  function AsReal(v: Value): Option<real>
  {
    match v
    case Num(r) => Some(r)
    case Int(i) => Some(i as real)
    case _ => None
  }

  /**
   * One keyword argument of the constructor: the named field takes the value,
   * a value of the wrong kind or an unknown name is a TypeError.
   */
  function Assign(c: Config, k: string, v: Value): Result<Config>
  {
    if k == "initial_weight" then
      if AsReal(v).Some? then Ok(c.(initialWeight := AsReal(v).value)) else Err("TypeError: " + k)
    else if k == "min_weight" then
      if AsReal(v).Some? then Ok(c.(minWeight := AsReal(v).value)) else Err("TypeError: " + k)
    else if k == "max_weight" then
      if AsReal(v).Some? then Ok(c.(maxWeight := AsReal(v).value)) else Err("TypeError: " + k)
    else if k == "learning_rate" then
      if AsReal(v).Some? then Ok(c.(learningRate := AsReal(v).value)) else Err("TypeError: " + k)
    else if k == "weight_decay" then
      if AsReal(v).Some? then Ok(c.(weightDecay := AsReal(v).value)) else Err("TypeError: " + k)
    else if k == "error_window_size" then
      if v.Int? then Ok(c.(errorWindowSize := v.i)) else Err("TypeError: " + k)
    else if k == "recent_weight_factor" then
      if AsReal(v).Some? then Ok(c.(recentWeightFactor := AsReal(v).value)) else Err("TypeError: " + k)
    else if k == "layer_configs" then
      if v.Dict? then
        var ls :- ValueToLayers(v.entries);
        Ok(c.(layerConfigs := ls))
      else Err("TypeError: " + k)
    else if k == "enable_adaptive_learning" then
      if v.Bool? then Ok(c.(enableAdaptiveLearning := v.b)) else Err("TypeError: " + k)
    else if k == "enable_weight_normalization" then
      if v.Bool? then Ok(c.(enableWeightNormalization := v.b)) else Err("TypeError: " + k)
    else if k == "log_level" then
      if v.Str? then Ok(c.(logLevel := v.s)) else Err("TypeError: " + k)
    else Err("TypeError: unexpected keyword argument " + k)
  }

  function AssignAll(c: Config, d: seq<(string, Value)>): Result<Config>
    decreases |d|
  {
    if |d| == 0 then Ok(c)
    else
      var c' :- Assign(c, d[0].0, d[0].1);
      AssignAll(c', d[1..])
  }

  /** A layers value is a dictionary whose every value is itself a dictionary. */
  function ValueToLayers(es: seq<(string, Value)>): Result<seq<(string, seq<(string, Value)>)>>
  {
    if |es| == 0 then Ok([])
    else match es[0].1
      case Dict(inner) =>
        var rest :- ValueToLayers(es[1..]);
        Ok([(es[0].0, inner)] + rest)
      case _ => Err("TypeError: layer_configs")
  }

  /**
   * `AdaptiveConfig(**data)`, as `load` does after reading the JSON: the keys
   * applied to the defaults. An unknown key is the constructor's TypeError; a
   * missing key keeps its default.
   */
  function FromDict(d: seq<(string, Value)>): (r: Result<Config>)
  {
    AssignAll(Default(), d)
  }

  lemma {:induction false} LayersRoundTrip(ls: seq<(string, seq<(string, Value)>)>)
    ensures ValueToLayers(LayersToValue(ls)) == Ok(ls)
  {
    if |ls| > 0 {
      var es := LayersToValue(ls);
      assert es[0].1 == Dict(ls[0].1);
      assert es[1..] == LayersToValue(ls[1..]);
      LayersRoundTrip(ls[1..]);
      assert [(ls[0].0, ls[0].1)] + ls[1..] == ls;
    }
  }

  /** The first six entries of `to_dict` set the numeric fields. */
  lemma RoundTripFirstHalf(c: Config)
    ensures AssignAll(Default(), ToDict(c)) ==
      AssignAll(Default().(initialWeight := c.initialWeight, minWeight := c.minWeight,
        maxWeight := c.maxWeight, learningRate := c.learningRate,
        weightDecay := c.weightDecay, errorWindowSize := c.errorWindowSize), ToDict(c)[6..])
  {
    var d := ToDict(c);
    var c0 := Default().(initialWeight := c.initialWeight);
    assert Assign(Default(), d[0].0, d[0].1) == Ok(c0);
    var c1 := c0.(minWeight := c.minWeight);
    assert Assign(c0, d[1].0, d[1].1) == Ok(c1);
    var c2 := c1.(maxWeight := c.maxWeight);
    assert Assign(c1, d[2].0, d[2].1) == Ok(c2);
    var c3 := c2.(learningRate := c.learningRate);
    assert Assign(c2, d[3].0, d[3].1) == Ok(c3);
    var c4 := c3.(weightDecay := c.weightDecay);
    assert Assign(c3, d[4].0, d[4].1) == Ok(c4);
    var c5 := c4.(errorWindowSize := c.errorWindowSize);
    assert Assign(c4, d[5].0, d[5].1) == Ok(c5);
    assert AssignAll(c4, d[5..]) == AssignAll(c5, d[6..]);
    assert AssignAll(c3, d[4..]) == AssignAll(c5, d[6..]);
    assert AssignAll(c2, d[3..]) == AssignAll(c5, d[6..]);
    assert AssignAll(c1, d[2..]) == AssignAll(c5, d[6..]);
    assert AssignAll(c0, d[1..]) == AssignAll(c5, d[6..]);
  }

  /** The last five entries of `to_dict` set the remaining fields. */
  lemma RoundTripSecondHalf(c: Config, c5: Config)
    requires c5.(recentWeightFactor := c.recentWeightFactor, layerConfigs := c.layerConfigs,
      enableAdaptiveLearning := c.enableAdaptiveLearning,
      enableWeightNormalization := c.enableWeightNormalization, logLevel := c.logLevel) == c
    ensures AssignAll(c5, ToDict(c)[6..]) == Ok(c)
  {
    var d := ToDict(c);
    LayersRoundTrip(c.layerConfigs);
    var c6 := c5.(recentWeightFactor := c.recentWeightFactor);
    assert Assign(c5, d[6].0, d[6].1) == Ok(c6);
    var c7 := c6.(layerConfigs := c.layerConfigs);
    assert Assign(c6, d[7].0, d[7].1) == Ok(c7);
    var c8 := c7.(enableAdaptiveLearning := c.enableAdaptiveLearning);
    assert Assign(c7, d[8].0, d[8].1) == Ok(c8);
    var c9 := c8.(enableWeightNormalization := c.enableWeightNormalization);
    assert Assign(c8, d[9].0, d[9].1) == Ok(c9);
    assert Assign(c9, d[10].0, d[10].1) == Ok(c);
    assert AssignAll(c, d[11..]) == Ok(c);
    assert AssignAll(c9, d[10..]) == Ok(c);
    assert AssignAll(c8, d[9..]) == Ok(c);
    assert AssignAll(c7, d[8..]) == Ok(c);
    assert AssignAll(c6, d[7..]) == Ok(c);
  }

  /** Saving a configuration and loading it back reproduces every field. */
  lemma SaveLoadRoundTrip(c: Config)
    ensures FromDict(ToDict(c)) == Ok(c)
  {
    RoundTripFirstHalf(c);
    RoundTripSecondHalf(c, Default().(initialWeight := c.initialWeight, minWeight := c.minWeight,
        maxWeight := c.maxWeight, learningRate := c.learningRate,
        weightDecay := c.weightDecay, errorWindowSize := c.errorWindowSize));
  }

  /** An unknown key fails the rebuild, whatever else the dictionary holds. */
  lemma {:induction false} UnknownKeyFails(c: Config, d: seq<(string, Value)>, i: nat)
    requires i < |d| && d[i].0 !in FieldNames
    ensures AssignAll(c, d).Err?
    decreases i
  {
    if i == 0 {
    } else {
      match Assign(c, d[0].0, d[0].1)
      case Err(_) =>
      case Ok(c') => UnknownKeyFails(c', d[1..], i - 1);
    }
  }

  /** Loading an empty dictionary gives the defaults. */
  lemma LoadEmpty()
    ensures FromDict([]) == Ok(Default())
  {
  }
}
