# TradingAgents adaptive core in Dafny

This project models, and proves properties of, the decision-making core of a
multi-agent trading assistant. The assistant's analysts (technical, news,
macro, quantitative), researchers, trader, debators and managers each give a
prediction in [-1, 1]. An adaptive system learns one weight per agent from its
past errors, adjusts the weight by the agent's layer, and combines the
predictions into a weighted decision. Around this core sit:

- a market-state recogniser (trend, volatility and market classification);
- the routing rules of the agent graph;
- the vendor router and the Alpha Vantage request builders;
- the technical and news tools with their caches and fallbacks;
- the adaptive enhancers that read a finished graph state;
- the backtest and feedback rules of the command-line tools.

Each Python source file of the core becomes one Dafny module in a file of the
same name, and `common.dfy` holds the shared pieces:

- `Option` and `Result`;
- Python dictionaries as insertion-ordered association lists (`Get`, `Put`,
  `HasKey`, `GetOr`);
- Python string operations (`Contains`, `Lower`, `Strip`, `find`, slicing);
- means, variances, rounding and extremes over `real`.

Numbers are `real`, not IEEE floats. Dates and timestamps are integers, and
"now" is always a parameter. JSON decoding, hashing, vendor calls and LLM
calls become function-typed parameters whose results the contracts quantify
over. The one place that uses regular expressions, the signal reading of
`adaptive_trading_graph.py`, has them written out as scanners
(`DigitsEnd`, `MatchAt`, `FirstMatch`, `FirstPercent`).

The modules follow the form of the code:

- Objects that Python updates in place are classes with `modifies` and
  `reads` frames: the weight manager, the adaptive system, the graph
  integrator, the coordinator, the classifier, the recogniser, the news
  cache, the enhancers and the CLI workflow.
- Their loops are methods proved equal to specification functions, with the
  promised properties proved about those functions as lemmas.
- Pure expressions and lookups are functions and lemmas.

Where the code and its documentation or tests disagree, the model follows the
code. Known cases:

- `get_weight` of an unknown agent is 1.0
  (tradingagents/adaptive_system/weight_manager.py:160-162), although a test
  expects a KeyError.
- Non-numeric predictions are not rejected.
- `trend_detector.py:132` checks EMA_5 and EMA_10, which are never collected.
  `TrendDetector.AlignmentCheckNeverApplies` proves that this branch is dead.

Five places where the code evidently does not do what its authors meant are
listed under "## Findings". Each is modelled both as written and as intended.
The members that call them use the intended version. These composites
therefore model the code as it would run once the finding is fixed, not as it
is written, and "## Left out" names each of them.

## Model

| member | source | states |
|---|---|---|
| LayerManager.Layers | tradingagents/adaptive_system/layer_manager.py:34-77 | the layer table has the keys analyst, researcher, debator, trader and manager in that order, and each config carries its own key as name with positive speed and tolerance and min <= max |
| LayerManager.EnumMembersHaveLayers | tradingagents/adaptive_system/layer_manager.py:11-17 | every `AgentLayer` member's value is a key of the layer table |
| LayerManager.GetLayerConfig | tradingagents/adaptive_system/layer_manager.py:79-81 | a known name yields its own config; an unknown name yields the analyst config |
| LayerManager.Adjustment | tradingagents/adaptive_system/layer_manager.py:92-103 | fails exactly for "mape" at error -0.001 (ZeroDivisionError); otherwise the inverse of error+0.001 for mape, 2.0/0.5 around 0.5 for binary, 3-2·error for pnl, the inverse of error+0.1 for any other metric |
| LayerManager.ScaledIsRatio | tradingagents/adaptive_system/layer_manager.py:110-111 | the volatility-scaled weight times the volatility is the blend times the layer's tolerance |
| LayerManager.LayerAdjustedWeight | tradingagents/adaptive_system/layer_manager.py:83-117 | fails exactly when the adjustment fails or the volatility is 0; otherwise the weight lies within the layer's [min, max] and is the clamped, volatility-scaled blend |
| LayerManager.ScaledAntitone | tradingagents/adaptive_system/layer_manager.py:110-111 | for a non-negative blend, a larger positive volatility never gives a larger scaled weight |
| LayerManager.ScaledNegative | tradingagents/adaptive_system/layer_manager.py:110-111 | with positive tolerance and volatility, a negative blend stays negative before clamping |
| LayerManager.VolatilityNeverRaisesWeight | tradingagents/adaptive_system/layer_manager.py:105-117 | for otherwise equal inputs, a higher positive volatility never yields a higher weight, and the call at the higher volatility succeeds too |
| LayerManager.HighVolatilityExample | tradingagents/adaptive_system/layer_manager.py:83-117 | an analyst at error 0.2 gets a strictly lower weight at volatility 2.0 than at 0.5 |
| LayerManager.EffectiveError | tradingagents/adaptive_system/layer_manager.py:128-129 | the error used is always positive and equals the given error when that is positive |
| LayerManager.AdjustWeight | tradingagents/adaptive_system/layer_manager.py:119-138 | the weight lies within the named layer's bounds |
| LayerManager.AdjustWeightNeverFails | tradingagents/adaptive_system/layer_manager.py:119-138 | the layer-adjusted weight of 1/(e+0.01) for the effective error e always exists and is the result of `adjust_weight` |
| LayerManager.SuggestedWeightsEntries | tradingagents/adaptive_system/layer_manager.py:140-153 | when no suggestion fails, the result has exactly the input's agents in order, each with its own layer-adjusted weight (defaults analyst, 1.0, 1.0) |
| LayerManager.SuggestedWeightsCons | tradingagents/adaptive_system/layer_manager.py:144-151 | a successful result for a non-empty input is the first agent's entry followed by the rest's |
| LayerManager.SuggestedWeightsFails | tradingagents/adaptive_system/layer_manager.py:140-153 | the call fails exactly when some agent's suggestion fails |
| LayerManager.SuggestedWeightsFirst | tradingagents/adaptive_system/layer_manager.py:144-151 | a non-empty input fails exactly when its first suggestion or the rest fails |
| LayerManager.FailingSuggestionFirst | tradingagents/adaptive_system/layer_manager.py:144-151 | some suggestion of a non-empty list fails exactly when the first one or one of the rest does |
| LayerManager.SuggestionsDefined | tradingagents/adaptive_system/layer_manager.py:140-153 | when every agent's error is non-negative and its volatility non-zero, no suggestion fails |
| WeightManager.PredictionError | tradingagents/adaptive_system/weight_manager.py:41-45 | the error is non-negative; it is the absolute difference relative to a non-zero actual value, and the absolute prediction when the actual value is 0 |
| WeightManager.RecentOf | tradingagents/adaptive_system/weight_manager.py:50-52 | the recent errors are a suffix of the errors, of length min(window, count) for a positive window |
| WeightManager.AverageErrorBounds | tradingagents/adaptive_system/weight_manager.py:54-57 | the average error lies between any lower and upper bounds of the errors that also bracket the default 1.0 |
| WeightManager.AverageErrorEmpty | tradingagents/adaptive_system/weight_manager.py:57 | with no errors the average error is 1.0 |
| WeightManager.AverageErrorNonNegative | tradingagents/adaptive_system/weight_manager.py:54-57 | non-negative errors average to a non-negative value |
| WeightManager.AgentRecord.AddPrediction | tradingagents/adaptive_system/weight_manager.py:28-30 | the prediction is appended and nothing else changes |
| WeightManager.AgentRecord.AddActual | tradingagents/adaptive_system/weight_manager.py:32-48 | the value is always appended; an error of the last prediction against it is appended exactly when predictions and actuals then have equal length; nothing else changes |
| WeightManager.AgentRecord.AverageError | tradingagents/adaptive_system/weight_manager.py:54-57 | the average error of a well-formed record is non-negative, and 1.0 with no errors |
| WeightManager.FreshRecord | tradingagents/adaptive_system/weight_manager.py:17-26 | a new record is well formed, with empty predictions, actuals, errors and weight history |
| WeightManager.RecordingKeepsWellFormed | tradingagents/adaptive_system/weight_manager.py:28-48 | recording a prediction or an actual keeps a record well formed (non-negative errors, no more errors than actuals) |
| WeightManager.PairedRecording | tradingagents/adaptive_system/weight_manager.py:32-48 | recording predictions each followed by its actual value adds exactly one error per pair and keeps the three lists the same length |
| WeightManager.WeightRule | tradingagents/adaptive_system/weight_manager.py:105-126 | with min <= max and a non-negative decay, the weight lies within [decay·min, decay·max] |
| WeightManager.WeightRuleInterior | tradingagents/adaptive_system/weight_manager.py:112-126 | when the learning-rate blend lies within the bounds, the weight is that blend times the decay |
| WeightManager.WeightRuleNonPositiveError | tradingagents/adaptive_system/weight_manager.py:108-110 | a non-positive average error gives the same weight as an error of 0.001 |
| WeightManager.WithWeight | tradingagents/adaptive_system/weight_manager.py:139-141 | the old weight is pushed on the weight history, the new weight is set, and nothing else changes |
| WeightManager.LoggedError | tradingagents/adaptive_system/weight_manager.py:149 | the logged error of a well-formed record is non-negative |
| WeightManager.Updated | tradingagents/adaptive_system/weight_manager.py:133-141 | the record gets the given weight, or the computed one when none is given, with the old weight pushed on its history |
| WeightManager.UpdateEntry | tradingagents/adaptive_system/weight_manager.py:144-150 | the history entry names the agent, the old weight, the new weight and the logged error |
| WeightManager.RefreshAll | tradingagents/adaptive_system/weight_manager.py:155-158 | updating a list of agents keeps the set of agents |
| WeightManager.RefreshStep | tradingagents/adaptive_system/weight_manager.py:155-158 | one more known name applies its update to the dictionary and appends its entry to the log |
| WeightManager.RefreshAllDistinct | tradingagents/adaptive_system/weight_manager.py:155-158 | for distinct known names, each listed agent is updated from its original record, the others are unchanged, and exactly one entry per name is logged in list order |
| WeightManager.RefreshAllKeepsRecords | tradingagents/adaptive_system/weight_manager.py:155-158 | a dictionary of well-formed records filed under their names stays so under any sequence of updates |
| WeightManager.Normalize | tradingagents/adaptive_system/weight_manager.py:168-178 | normalisation keeps the agents in order |
| WeightManager.NormalizeSumsToOne | tradingagents/adaptive_system/weight_manager.py:173-174 | with normalisation enabled and a positive total, the weights sum to 1 |
| WeightManager.NormalizeProportional | tradingagents/adaptive_system/weight_manager.py:173-174 | with normalisation enabled and a positive total, each weight times the total is the original weight |
| WeightManager.NormalizeUniform | tradingagents/adaptive_system/weight_manager.py:175-178 | otherwise every agent gets 1/n, and the weights of a non-empty dictionary sum to 1 |
| WeightManager.ReplaceRecord | tradingagents/adaptive_system/weight_manager.py:196-205 | replacing a known agent's record by a well-formed one filed under its name keeps the dictionary consistent and its keys |
| WeightManager.AdaptiveWeightManager.constructor | tradingagents/adaptive_system/weight_manager.py:63-69 | the manager starts with the given configuration, no agents and an empty history |
| WeightManager.AdaptiveWeightManager.RegisterAgent | tradingagents/adaptive_system/weight_manager.py:71-80 | a known name changes nothing; a new name is appended to the registration order with a fresh record of the given type and the initial weight |
| WeightManager.AdaptiveWeightManager.RecordPrediction | tradingagents/adaptive_system/weight_manager.py:82-89 | returns true exactly for a known agent, whose record gains the prediction; nothing else changes |
| WeightManager.AdaptiveWeightManager.RecordActual | tradingagents/adaptive_system/weight_manager.py:91-98 | returns true exactly for a known agent, whose record gains the actual value (and its error); nothing else changes |
| WeightManager.AdaptiveWeightManager.CalculateWeight | tradingagents/adaptive_system/weight_manager.py:100-126 | the initial weight for an unknown agent; for a known agent the weight rule on its average error, within the decayed bounds |
| WeightManager.AdaptiveWeightManager.UpdateWeight | tradingagents/adaptive_system/weight_manager.py:128-153 | returns true exactly for a known agent; then its record is updated and exactly one history entry is logged; otherwise nothing changes |
| WeightManager.AdaptiveWeightManager.UpdateAllWeights | tradingagents/adaptive_system/weight_manager.py:155-158 | every agent in registration order is updated, as `RefreshAll` and `RefreshLog` describe |
| WeightManager.AdaptiveWeightManager.GetWeight | tradingagents/adaptive_system/weight_manager.py:160-162 | the record's weight, or 1.0 (the record default) for an unknown agent |
| WeightManager.AdaptiveWeightManager.AllWeights | tradingagents/adaptive_system/weight_manager.py:164-166 | the agents in registration order, each with its current weight |
| WeightManager.AdaptiveWeightManager.NormalizedWeights | tradingagents/adaptive_system/weight_manager.py:168-178 | the agents in registration order; with normalisation on and a positive total the weights sum to 1, otherwise each is 1/n |
| WeightManager.AdaptiveWeightManager.GetAgentError | tradingagents/adaptive_system/weight_manager.py:180-184 | non-negative; 1.0 for an unknown agent, else the average of its last 10 errors |
| WeightManager.AdaptiveWeightManager.GetAgentLayer | tradingagents/adaptive_system/weight_manager.py:186-190 | the record's type, or "analyst" for an unknown agent |
| WeightManager.AdaptiveWeightManager.ResetAgent | tradingagents/adaptive_system/weight_manager.py:196-205 | a known agent gets a fresh record of the same type at the initial weight; nothing else changes |
| AdaptiveConfig.DefaultLayerConfigs | tradingagents/adaptive_system/config.py:28-53 | the default layer table has the keys analyst, researcher, debator and trader, each holding adjust_speed, min_weight, max_weight and error_metric |
| AdaptiveConfig.Default | tradingagents/adaptive_system/config.py:14-58 | the defaults: initial weight 1.0, bounds 0.1 and 5.0, learning rate 0.3, decay 0.99, window 20, learning and normalisation enabled, and initial weight within the bounds |
| AdaptiveConfig.LayersToValue | tradingagents/adaptive_system/config.py:60-65 | each layer entry becomes a nested dictionary under its own name, in order |
| AdaptiveConfig.ToDict | tradingagents/adaptive_system/config.py:60-65 | the dictionary holds every public field under its own name, in declaration order |
| AdaptiveConfig.LayersRoundTrip | tradingagents/adaptive_system/config.py:67-77 | a layer table written as nested dictionaries reads back unchanged |
| AdaptiveConfig.RoundTripFirstHalf | tradingagents/adaptive_system/config.py:60-77 | applying the first six entries of `to_dict` to the defaults sets the numeric fields of the saved configuration |
| AdaptiveConfig.RoundTripSecondHalf | tradingagents/adaptive_system/config.py:60-77 | applying the last five entries sets the remaining fields, giving back the saved configuration |
| AdaptiveConfig.SaveLoadRoundTrip | tradingagents/adaptive_system/config.py:60-77 | loading what `save` wrote (`cls(**to_dict())`) reproduces the configuration |
| AdaptiveConfig.UnknownKeyFails | tradingagents/adaptive_system/config.py:73-77 | a dictionary holding a key that is not a field fails to load (the constructor's TypeError) |
| AdaptiveConfig.LoadEmpty | tradingagents/adaptive_system/config.py:73-77 | loading an empty dictionary gives the defaults |
| AdaptivePackage.AdjustWeightDynamic | tradingagents/adaptive_system/layer_manager.py:119-138 | `adjust_weight` with run-time typed arguments fails exactly when the error argument is a string |
| AdaptivePackage.AsWrittenCallRaises | tradingagents/adaptive_system/__init__.py:75-80 | the call as written puts the layer string in the error slot, so it always raises |
| AdaptivePackage.IntendedCallSucceeds | tradingagents/adaptive_system/__init__.py:67-80 | with the arguments in their intended slots the call returns the layer-adjusted weight, within the layer's bounds |
| AdaptivePackage.Observed | tradingagents/adaptive_system/__init__.py:60-65 | after recording an optional prediction and then the actual value, the record has the actual value appended, the prediction appended when given, and the same name, type and weight |
| AdaptivePackage.PredictionRecordedFirst | tradingagents/adaptive_system/__init__.py:60-65 | for a paired record, a supplied prediction gives exactly one new error, that of the prediction against the actual value |
| AdaptivePackage.ActualAloneAddsNoError | tradingagents/adaptive_system/__init__.py:64-65 | for a paired record, an actual value without a prediction adds no error |
| AdaptivePackage.ObserveIn | tradingagents/adaptive_system/__init__.py:60-65 | a known agent's record is replaced by its observed record; an unknown agent changes nothing |
| AdaptivePackage.ResultWeightBounds | tradingagents/adaptive_system/__init__.py:67-85 | the weight `update_with_result` returns lies within the bounds of the agent's layer (analyst for an unknown agent) |
| AdaptivePackage.ResultWeightFirstError | tradingagents/adaptive_system/__init__.py:67-85 | an agent with no error yet, and no new one, gets the layer-adjusted weight for the default error 1.0 |
| AdaptivePackage.Pairs | tradingagents/adaptive_system/__init__.py:89-96 | each predicting agent is paired with its raw weight, in order |
| AdaptivePackage.PairsValues | tradingagents/adaptive_system/__init__.py:89-96 | the paired weights are the raw weights |
| AdaptivePackage.Combine | tradingagents/adaptive_system/__init__.py:98-113 | the decision's weights have the predicting agents in order, and the raw predictions are returned as given |
| AdaptivePackage.CombinePositiveTotal | tradingagents/adaptive_system/__init__.py:100-101 | with a positive total the normalised weights sum to 1 |
| AdaptivePackage.CombineProportional | tradingagents/adaptive_system/__init__.py:100-101 | with a positive total each weight is its raw weight's share of the total |
| AdaptivePackage.CombineUniform | tradingagents/adaptive_system/__init__.py:102-103 | with a total that is not positive every agent gets 1/n, and the weights of a non-empty list sum to 1 |
| AdaptivePackage.CombineEmpty | tradingagents/adaptive_system/__init__.py:87-113 | no predictions give decision 0 and no weights |
| AdaptivePackage.CombineExample | tradingagents/adaptive_system/__init__.py:105-107 | weights 2 : 1 on predictions 1.2 and 1.4 give (2·1.2 + 1.4) / 3 |
| AdaptivePackage.Registered | tradingagents/adaptive_system/__init__.py:29-32 | registering a list keeps every known record and adds a fresh record, with the type of its first entry, for each new name |
| AdaptivePackage.RecordedKnown | tradingagents/adaptive_system/__init__.py:34-36 | recording a list of predictions keeps the set of agents |
| AdaptivePackage.RecordedKeepsWeights | tradingagents/adaptive_system/__init__.py:34-36 | recording predictions changes no agent's weight |
| AdaptivePackage.RecordedRead | tradingagents/adaptive_system/__init__.py:34-36 | for distinct names, a known agent gains exactly its own prediction, and an agent without one is unchanged |
| AdaptivePackage.ResultState | tradingagents/adaptive_system/__init__.py:38-85 | a known agent's update logs exactly one history entry, for that agent, after the old history, and keeps the set of agents; an unknown agent changes nothing |
| AdaptivePackage.UpdatedAll | tradingagents/adaptive_system/__init__.py:38-85 | updating a list of agents keeps the set of agents |
| AdaptivePackage.UpdatedAllSnoc | tradingagents/adaptive_system/__init__.py:38-85 | one more name applies its update after those of the earlier names |
| AdaptivePackage.UpdatedAllKnown | tradingagents/adaptive_system/__init__.py:38-85 | updating known agents logs exactly one entry per name, in order, after the old history |
| AdaptivePackage.AdaptiveSystem.constructor | tradingagents/adaptive_system/__init__.py:23-27 | the system uses the given configuration, or the defaults when none is given, with an empty weight manager |
| AdaptivePackage.AdaptiveSystem.RegisterAgent | tradingagents/adaptive_system/__init__.py:29-32 | registers with the weight manager (a known name changes nothing; a new one gets a fresh record) and returns the system itself |
| AdaptivePackage.AdaptiveSystem.RegisterEach | tradingagents/adaptive_system/__init__.py:29-32 | registering each name of a list in turn leaves the agents as `Registered` describes |
| AdaptivePackage.AdaptiveSystem.RecordPrediction | tradingagents/adaptive_system/__init__.py:34-36 | returns true exactly for a known agent, whose record gains the prediction; nothing else changes |
| AdaptivePackage.AdaptiveSystem.RecordEach | tradingagents/adaptive_system/__init__.py:34-36 | recording each prediction in turn leaves the agents as `RecordedKnown` describes |
| AdaptivePackage.AdaptiveSystem.RecordResult | tradingagents/adaptive_system/__init__.py:60-65 | the prediction, if given, and then the actual value are recorded, as `ObserveIn` describes; the history is unchanged |
| AdaptivePackage.AdaptiveSystem.UpdateWithResultAsWritten | tradingagents/adaptive_system/__init__.py:38-85 | as written: both recordings happen, then the call raises, so no weight or history entry changes |
| AdaptivePackage.AdaptiveSystem.StoreLayerWeight | tradingagents/adaptive_system/__init__.py:67-83 | returns the layer-adjusted weight of the agent's average error and stores it, logging one history entry; an unknown agent changes nothing |
| AdaptivePackage.AdaptiveSystem.UpdateWithResult | tradingagents/adaptive_system/__init__.py:38-85 | corrected: records, then returns the layer-adjusted weight and stores it in the agent's record with exactly one history entry; an unknown agent changes nothing |
| AdaptivePackage.AdaptiveSystem.UpdateEach | tradingagents/adaptive_system/__init__.py:38-85 | updating each name in turn leaves the agents and the history as `UpdatedAll` describes |
| AdaptivePackage.AdaptiveSystem.RawWeights | tradingagents/adaptive_system/__init__.py:89-96 | each predicting agent's weight from the manager, 1.0 for an unregistered one |
| AdaptivePackage.AdaptiveSystem.WeightedDecision | tradingagents/adaptive_system/__init__.py:87-113 | the weights have the predicting agents in order and sum to 1 when there is a prediction; each is its raw weight's share of a positive total, else 1/n; the decision is the weighted sum of the predictions |
| EnhancedLayerManager.UpdateWithGet | tradingagents/adaptive_system/enhanced_layer_manager.py:195-205 | after `d.update(e)` a regime reads e's score when e has it, else d's |
| EnhancedLayerManager.UpdateWithUnique | tradingagents/adaptive_system/enhanced_layer_manager.py:195-205 | `d.update(e)` keeps the regimes of d distinct |
| EnhancedLayerManager.TrendScore | tradingagents/adaptive_system/enhanced_layer_manager.py:282-301 | the trend score lies in [-1, 1] and is 0 below 50 prices |
| EnhancedLayerManager.VolatilityScore | tradingagents/adaptive_system/enhanced_layer_manager.py:303-320 | the volatility score lies in [0, 1] and is 0.5 below 20 prices or for a zero historical volatility |
| EnhancedLayerManager.MomentumScore | tradingagents/adaptive_system/enhanced_layer_manager.py:322-335 | the momentum score lies in [-1, 1] and is 0 below 30 prices |
| EnhancedLayerManager.RangeScore | tradingagents/adaptive_system/enhanced_layer_manager.py:337-356 | the range score is at most 1 and is 0 below 20 highs or lows |
| EnhancedLayerManager.TechnicalUnique | tradingagents/adaptive_system/enhanced_layer_manager.py:258-275 | each technical regime is reported at most once |
| EnhancedLayerManager.TechnicalBounds | tradingagents/adaptive_system/enhanced_layer_manager.py:258-275 | with component scores in their ranges, every technical score lies in (0.6, 1] |
| EnhancedLayerManager.TechnicalKeys | tradingagents/adaptive_system/enhanced_layer_manager.py:258-275 | each technical regime is reported exactly when its component passes its threshold (trend ±0.7, volatility above 0.7 or below 0.3, range above 0.6, momentum ±0.7), with the score the source assigns |
| EnhancedLayerManager.FundamentalScores | tradingagents/adaptive_system/enhanced_layer_manager.py:358-399 | the fundamental scores are always empty, since `_extract_macro_events` never sets a flag |
| EnhancedLayerManager.SplitPairMeaning | tradingagents/adaptive_system/enhanced_layer_manager.py:76-81 | the parsed sides of a pair with one "/" put it back together and a pair with exactly one "/" always parses; without "/" the first three characters and the rest |
| EnhancedLayerManager.MacroDataMeaning | tradingagents/adaptive_system/enhanced_layer_manager.py:70-101 | only "us" and "eu" are stored, each with truthy data; "us" exactly for a USD pair whose FRED data is truthy, "eu" exactly for an EUR pair whose ECB data is truthy; unavailable tools or a malformed pair give {} |
| EnhancedLayerManager.RiskData | tradingagents/adaptive_system/enhanced_layer_manager.py:103-118 | a non-empty result comes only from available tools returning a successful dictionary |
| EnhancedLayerManager.RiskRuleBounds | tradingagents/adaptive_system/enhanced_layer_manager.py:411-421 | each risk rule sets at most one score of its own regime: volatility in (0.5, 1], drawdown in (0.4, 1], Sharpe exactly 0.6 |
| EnhancedLayerManager.RiskRules | tradingagents/adaptive_system/enhanced_layer_manager.py:401-426 | with numeric metrics: high_volatility is min(vol/0.3, 1) exactly when vol > 0.15, crisis min(abs(mdd)/0.5, 1) exactly when abs(mdd) > 0.2, quant_shock 0.6 exactly when abs(sharpe) > 3 |
| EnhancedLayerManager.RiskPartialOnBadSharpe | tradingagents/adaptive_system/enhanced_layer_manager.py:405-424 | a non-numeric Sharpe ratio keeps the volatility and drawdown scores set before it raised, and sets no quant_shock |
| EnhancedLayerManager.RiskEmptyOnBadMetric | tradingagents/adaptive_system/enhanced_layer_manager.py:405-424 | a non-numeric volatility or drawdown raises before any score is set, so the scores are empty |
| EnhancedLayerManager.RiskShape | tradingagents/adaptive_system/enhanced_layer_manager.py:401-426 | whatever the metrics, the risk scores have distinct regimes and lie in (0.4, 1] |
| EnhancedLayerManager.BaseRecommendationTable | tradingagents/adaptive_system/enhanced_layer_manager.py:430-445 | a listed regime's text starts with the symbol; any other regime gets "建议谨慎操作" |
| EnhancedLayerManager.ConfidenceLevelMonotone | tradingagents/adaptive_system/enhanced_layer_manager.py:447-453 | a higher confidence never gets a lower label; "high" exactly above 0.7 and "low" exactly at or below 0.5 |
| EnhancedLayerManager.Detect | tradingagents/adaptive_system/enhanced_layer_manager.py:184-234 | no score gives the no-data answer; otherwise the dominant regime is the first of maximal merged score, with that score as confidence, its recommendation, the merged scores and the sources present |
| EnhancedLayerManager.TechnicalInputShape | tradingagents/adaptive_system/enhanced_layer_manager.py:193-195 | the technical scores merged have distinct regimes in (0.6, 1] |
| EnhancedLayerManager.MergedGet | tradingagents/adaptive_system/enhanced_layer_manager.py:190-205 | a regime's merged score is the risk detector's when it scored it (merged last), else the technical detector's |
| EnhancedLayerManager.RiskOverridesTechnical | tradingagents/adaptive_system/enhanced_layer_manager.py:192-205 | when both detectors score high volatility, the risk score is kept |
| EnhancedLayerManager.MergedBounds | tradingagents/adaptive_system/enhanced_layer_manager.py:190-205 | every merged score, and so a data-driven confidence, lies in (0.4, 1] |
| EnhancedLayerManager.MergedUnique | tradingagents/adaptive_system/enhanced_layer_manager.py:190-205 | the merged scores have distinct regimes |
| IntegratedSystem.AnalystLayers | tradingagents/adaptive_system/integrated_system.py:86-95 | macro and quantitative analysts are strategic, the technical analyst tactical, the news analyst operational |
| IntegratedSystem.RegisterAnalysts | tradingagents/adaptive_system/integrated_system.py:77-98 | every analyst ends up registered; a new one gets a fresh record typed with its layer; existing records and the registration order are kept |
| IntegratedSystem.RegimeAdjustmentAtLeastOne | tradingagents/adaptive_system/integrated_system.py:204-239 | a regime adjustment is never below 1.0 |
| IntegratedSystem.RegimeAdjustmentMeaning | tradingagents/adaptive_system/integrated_system.py:204-239 | the adjustment exceeds 1.0 exactly for the regimes the analyst's table lists; otherwise it is 1.0, and always 1.0 for an unknown analyst |
| IntegratedSystem.RegimeAdjustmentExamples | tradingagents/adaptive_system/integrated_system.py:204-239 | the table entries technical/breakout_up 1.7 and news/news_driven 1.8, and the default 1.0 for macro/ranging and an unknown analyst |
| IntegratedSystem.AdaptiveWeight | tradingagents/adaptive_system/integrated_system.py:186-202 | fails (ZeroDivisionError) exactly for an error of -0.01; otherwise the raw weight clamped to [0.1, 3.0] |
| IntegratedSystem.AdaptiveWeightUnclamped | tradingagents/adaptive_system/integrated_system.py:186-202 | inside [0.1, 3.0] the weight is 1/(error+0.01) × adjustment × (0.5 + confidence) itself |
| IntegratedSystem.AdaptiveWeightMonotone | tradingagents/adaptive_system/integrated_system.py:186-202 | a smaller non-negative error never gives a smaller weight when 0.5 + confidence is not negative |
| IntegratedSystem.ClampedWeightMonotone | tradingagents/adaptive_system/integrated_system.py:190-202 | the clamped weight is antitone in a non-negative error for non-negative factors |
| IntegratedSystem.AdaptedFromFrame | tradingagents/adaptive_system/integrated_system.py:154-167 | whether an analyst was adapted depends only on its own errors before and its own record after |
| IntegratedSystem.AdaptStep | tradingagents/adaptive_system/integrated_system.py:154-167 | one step of the weight loop extends "adapted" from the first i analysts to the first i + 1 |
| IntegratedSystem.AdaptedInRange | tradingagents/adaptive_system/integrated_system.py:154-167 | an adapted analyst's weight lies in [0.1, 3.0] |
| IntegratedSystem.AdaptOne | tradingagents/adaptive_system/integrated_system.py:155-167 | the analyst's weight becomes its adaptive weight; its errors and every other record stay |
| IntegratedSystem.AdaptWeights | tradingagents/adaptive_system/integrated_system.py:150-167 | every registered analyst's weight becomes its adaptive weight for the regime and confidence, from its own errors before the loop, and lies in [0.1, 3.0]; the set of agents is kept |
| Optimization.CombinationsCount | tradingagents/adaptive_system/optimization.py:106-134 | the number of combinations evaluated is the product of the value-list lengths |
| Optimization.BranchesCount | tradingagents/adaptive_system/optimization.py:128-132 | the combinations under a list of first-parameter values number that list's length times the size of the rest of the grid |
| Optimization.DefaultGridSize | tradingagents/adaptive_system/optimization.py:91-98 | the default grid has 4·3·3·3·3 = 324 combinations |
| Optimization.CombinationsExactly | tradingagents/adaptive_system/optimization.py:106-134 | an assignment is evaluated if and only if it extends the current one by exactly one listed value of each parameter, in grid order |
| Optimization.ExtendsByFirst | tradingagents/adaptive_system/optimization.py:128-132 | extending by a grid is choosing a listed value of its first parameter and extending by the rest |
| Optimization.ExtendsStep | tradingagents/adaptive_system/optimization.py:128-132 | an extension whose next entry is the first parameter's value v is an extension of current+{first: v} by the rest |
| Optimization.FreshStep | tradingagents/adaptive_system/optimization.py:132 | assigning an unassigned first parameter appends it, and the rest of the grid stays unassigned |
| Optimization.BranchesExactly | tradingagents/adaptive_system/optimization.py:131-132 | an assignment is among the branches for some values exactly when it extends current by one of those values and then by the rest |
| Optimization.BranchesSnoc | tradingagents/adaptive_system/optimization.py:131-132 | the branches for one more value are those for the earlier values followed by the combinations under the new one |
| Optimization.Entries | tradingagents/adaptive_system/optimization.py:111-124 | one history entry per evaluated assignment |
| Optimization.EntriesAt | tradingagents/adaptive_system/optimization.py:113-124 | entry i records iteration start+i, the i-th assignment and its score |
| Optimization.EntriesConcat | tradingagents/adaptive_system/optimization.py:113-124 | evaluating two runs in turn logs the first run's entries followed by the second's, numbered on |
| Optimization.BestConcat | tradingagents/adaptive_system/optimization.py:119-122 | the best after two runs is the best of the second run starting from the best of the first |
| Optimization.BestIsFirstMaximum | tradingagents/adaptive_system/optimization.py:119-122 | after a non-empty history the best entry exists, has the maximum score, and is the first entry with that score (only a strictly greater score replaces it) |
| Optimization.GridSearchRun.constructor | tradingagents/adaptive_system/optimization.py:100-103 | the search starts at iteration 0 with no best and an empty history |
| Optimization.GridSearchRun.Generate | tradingagents/adaptive_system/optimization.py:106-132 | every combination under current is evaluated in order: one history entry each, numbered from the current iteration, the iteration advanced by their count and the best updated over them |
| Optimization.BranchStep | tradingagents/adaptive_system/optimization.py:131-132 | the loop invariant of the recursion: after the branch of value i, the history, iteration and best cover the branches of the first i+1 values |
| Optimization.AppendEntries | tradingagents/adaptive_system/optimization.py:113-124 | evaluating one run and then another is evaluating their concatenation, for the history and the best |
| Optimization.GridSearchAsWritten | tradingagents/adaptive_system/optimization.py:85-141 | as written, every combination is evaluated but the return reads an unassigned `convergence_iteration`, so the call always fails with NameError |
| Optimization.EnumerationNumbered | tradingagents/adaptive_system/optimization.py:113-124 | a full enumeration numbers every combination of the grid 0..N-1 in evaluation order |
| Optimization.BestOfNumbered | tradingagents/adaptive_system/optimization.py:119-122 | the record built from the running best describes the first entry of maximal score and its iteration |
| Optimization.GridSearchOn | tradingagents/adaptive_system/optimization.py:100-141 | corrected: the history holds one entry per combination numbered 0..N-1 in evaluation order, and the best fields describe the first entry of maximal score, with its iteration as convergence iteration |
| Optimization.GridSearch | tradingagents/adaptive_system/optimization.py:85-141 | corrected: the same outcome on the given grid, or the default grid when none is given |
| Optimization.GroupedShape | tradingagents/adaptive_system/optimization.py:151-156 | each layer is grouped once and no group is empty |
| Optimization.GroupedHasKey | tradingagents/adaptive_system/optimization.py:151-156 | a layer is grouped exactly when some agent belongs to it (layer defaulting to analyst) |
| Optimization.LayerSnoc | tradingagents/adaptive_system/optimization.py:152-156 | some agent is in layer l exactly when one before the last is, or the last is |
| Optimization.PutNonEmpty | tradingagents/adaptive_system/optimization.py:154-156 | assigning a non-empty list keeps every group non-empty |
| Optimization.TuningSane | tradingagents/adaptive_system/optimization.py:159-190 | every tier config has speed in (0,1), 0 < min < max and a positive tolerance; a better mean never gets a lower minimum weight |
| Optimization.GroupByLayer | tradingagents/adaptive_system/optimization.py:150-156 | the first loop groups the target metric (0.0 when missing) by layer, layers in order of first appearance |
| Optimization.TuneLayers | tradingagents/adaptive_system/optimization.py:158-190 | the second loop emits one tier config per group, in order |
| Optimization.SameKeys | tradingagents/adaptive_system/optimization.py:158-190 | two dictionaries with the same key list hold the same keys |
| Optimization.OptimizeLayerConfigs | tradingagents/adaptive_system/optimization.py:143-192 | one config per layer present, in order of first appearance, each the tier config of that layer's metric values |
| Optimization.RouletteProbabilities | tradingagents/adaptive_system/optimization.py:327-333 | fails (ValueError from `min`) exactly for empty scores; otherwise one probability per score |
| Optimization.RouletteProbabilitiesValid | tradingagents/adaptive_system/optimization.py:330-333 | every probability is strictly positive, they sum to 1, and a higher score never gets a lower probability |
| Optimization.SumLowerBound | tradingagents/adaptive_system/optimization.py:331-332 | a non-empty list of values each at least lo > 0 sums to at least lo |
| Optimization.Cumulative | tradingagents/adaptive_system/optimization.py:335 | one running total per weight |
| Optimization.BisectFrom | tradingagents/adaptive_system/optimization.py:335 | the index is the first from i whose running total exceeds the draw, or hi |
| Optimization.RouletteSelect | tradingagents/adaptive_system/optimization.py:327-335 | fails exactly for empty scores or lists of different lengths; otherwise an index of the population |
| Optimization.RouletteSelectSlot | tradingagents/adaptive_system/optimization.py:335 | the selected slot is the one the scaled draw falls into: the totals before it do not exceed the draw and its own does (the last slot also takes rounding) |
| Optimization.Crossover | tradingagents/adaptive_system/optimization.py:337-345 | fails (KeyError) exactly when parent2 lacks a key the draw asks it for; otherwise the child has exactly parent1's keys in order, each value from parent1 when the draw exceeds 0.5 and from parent2 otherwise |
| Optimization.MutatedValueInBounds | tradingagents/adaptive_system/optimization.py:353-356 | a mutated value lies within its bounds; it fails exactly for the window size with an empty integer range |
| Optimization.WindowValueInBounds | tradingagents/adaptive_system/optimization.py:353-354 | the window size with a non-empty integer range is drawn within it |
| Optimization.UniformValueInBounds | tradingagents/adaptive_system/optimization.py:355-356 | any other parameter is drawn between its bounds |
| Optimization.UniformBetween | tradingagents/adaptive_system/optimization.py:356 | `random.uniform(lo, hi)` lies between the two bounds, whichever is larger |
| Optimization.FloorScaled | tradingagents/adaptive_system/optimization.py:354 | the integer offset of `randint` lands in 0..n-1 |
| Optimization.ScaledFraction | tradingagents/adaptive_system/optimization.py:356 | a span scaled by a draw in [0,1) stays between 0 and the span |
| Optimization.MutatedFails | tradingagents/adaptive_system/optimization.py:347-358 | the mutation fails exactly when a selected window bound has an empty integer range |
| Optimization.MutatedKeys | tradingagents/adaptive_system/optimization.py:347-358 | a successful mutation has the input's keys plus the selected names |
| Optimization.MutatedSelectedInBounds | tradingagents/adaptive_system/optimization.py:351-356 | after a successful mutation every selected name holds a value within its bounds |
| Optimization.MutatedUntouched | tradingagents/adaptive_system/optimization.py:349-358 | a successful mutation leaves every name no selected bound carries as it was |
| Optimization.WeightOptimizer.constructor | tradingagents/adaptive_system/optimization.py:23-36 | no bounds and empty bounds both select the default bounds; the history starts empty |
| Optimization.WeightOptimizer.Mutate | tradingagents/adaptive_system/optimization.py:347-358 | the result is the mutation of the input by the instance's bounds, each selected name within its bounds; the input is a value and stays as it was |
| Optimization.MutatedFailureSticks | tradingagents/adaptive_system/optimization.py:351-356 | once a prefix of the bounds fails, the whole mutation fails with the same error |
| GraphIntegration.Without | tradingagents/adaptive_system/graph_integration.py:73 | removing u → v leaves exactly the other ordered pairs and keeps the graph free of parallel edges |
| GraphIntegration.With | tradingagents/adaptive_system/graph_integration.py:76 | adding u → v adds exactly that pair, keeps the edge list simple, and the edge then carries every given attribute |
| GraphIntegration.Preds | tradingagents/adaptive_system/graph_integration.py:65 | the predecessors of v are exactly the sources of edges into v, each listed once in a simple graph |
| GraphIntegration.AddedNode | tradingagents/adaptive_system/graph_integration.py:57-62 | adding a node keeps the earlier nodes in order, holds the new one, stays duplicate-free and is a no-op for an existing node |
| GraphIntegration.Touched | tradingagents/adaptive_system/graph_integration.py:76 | an endpoint that was not a node gets an empty attribute dictionary; existing dictionaries are unchanged |
| GraphIntegration.EndpointsMonotone | tradingagents/adaptive_system/graph_integration.py:57-62 | edges between nodes stay edges between nodes when nodes are added |
| GraphIntegration.EndpointsWith | tradingagents/adaptive_system/graph_integration.py:76 | adding an edge between two nodes keeps every edge between nodes |
| GraphIntegration.EndpointsWithout | tradingagents/adaptive_system/graph_integration.py:73 | removing an edge keeps every edge between nodes |
| GraphIntegration.RewiredPairs | tradingagents/adaptive_system/graph_integration.py:68-76 | after the rewiring loop, x → y is an edge iff it was one and is not a listed predecessor's edge into the target, or it is a listed predecessor's new edge into the weight node; simplicity is kept |
| GraphIntegration.RewiredStep | tradingagents/adaptive_system/graph_integration.py:68-76 | one more loop iteration removes the predecessor's edge into the target and re-adds it into the weight node with that edge's attributes |
| GraphIntegration.InjectedShape | tradingagents/adaptive_system/graph_integration.py:64-83 | after injection the weight node's predecessors are exactly the target's former predecessors, the target's only predecessor is the weight node, the weight node's only successor is the target, and edges into every other node are as before |
| GraphIntegration.InjectedValid | tradingagents/adaptive_system/graph_integration.py:64-83 | injection keeps the graph without parallel edges and every edge between nodes |
| GraphIntegration.DiGraph.constructor | tradingagents/adaptive_system/graph_integration.py:12-14 | an empty graph with no nodes, attributes or edges |
| GraphIntegration.DiGraph.AddNode | tradingagents/adaptive_system/graph_integration.py:57-62 | `add_node` appends a new node and merges the attributes into its dictionary, leaving edges alone |
| GraphIntegration.DiGraph.AddEdge | tradingagents/adaptive_system/graph_integration.py:76-83 | `add_edge` creates missing endpoints with empty attributes and adds or updates the edge |
| GraphIntegration.DiGraph.MoveInEdges | tradingagents/adaptive_system/graph_integration.py:64-76 | the loop returns the target's predecessors and leaves the edges rewired from each of them onto the weight node, keeping the graph valid |
| GraphIntegration.DiGraph.SpliceBefore | tradingagents/adaptive_system/graph_integration.py:56-83 | adds the weight node with its attributes and leaves exactly the injected edge list |
| GraphIntegration.DiGraph.RemoveEdge | tradingagents/adaptive_system/graph_integration.py:73 | an existing edge is removed and nothing else changes |
| GraphIntegration.DecisionNodesExactly | tradingagents/adaptive_system/graph_integration.py:25-36 | a node is reported iff it is a node whose lower-cased name holds decision/consensus/final/execute/trade or whose "type" is decision/action/trade |
| GraphIntegration.WeightNodeName | tradingagents/adaptive_system/graph_integration.py:54 | the weight node's name starts with "weight_calc_" and is longer than the target's |
| GraphIntegration.GraphIntegrator.constructor | tradingagents/adaptive_system/graph_integration.py:12-14 | holds the given graph (or none) and no weight nodes |
| GraphIntegration.GraphIntegrator.SetGraph | tradingagents/adaptive_system/graph_integration.py:16-18 | the integrator then holds the given graph |
| GraphIntegration.GraphIntegrator.FindDecisionNodes | tradingagents/adaptive_system/graph_integration.py:20-36 | [] without a graph, otherwise the decision nodes in node order |
| GraphIntegration.GraphIntegrator.InjectWeightNode | tradingagents/adaptive_system/graph_integration.py:38-92 | returns "" and changes nothing exactly when the graph or target is missing; otherwise returns `weight_calc_<target>_<count>`, only adds nodes, and records the node |
| GraphIntegration.GraphIntegrator.IntegrateWithGraph | tradingagents/adaptive_system/graph_integration.py:159-190 | ValueError exactly when there is no graph; otherwise one weight node per requested target (the decision nodes when none are given) |
| GraphIntegration.GraphIntegrator.AddFeedbackEdge | tradingagents/adaptive_system/graph_integration.py:192-205 | True exactly when the graph holds both nodes, in which case the feedback edge is added; otherwise the graph is unchanged |
| GraphIntegration.AgentsInfo | tradingagents/adaptive_system/graph_integration.py:117-125 | one info per prediction, in order, named after the agent, with a non-negative error and no volatility adjustment |
| GraphIntegration.SetWeights | tradingagents/adaptive_system/graph_integration.py:131-132 | applying the suggested weights never adds or removes an agent |
| GraphIntegration.SetStep | tradingagents/adaptive_system/graph_integration.py:131-132 | one more suggestion updates only the named known agent's record and logs one history entry for it |
| GraphIntegration.SetWeightsDistinct | tradingagents/adaptive_system/graph_integration.py:131-132 | with distinct names, each known agent ends with its suggested weight and every unlisted agent is untouched |
| GraphIntegration.WeightedTermsSnoc | tradingagents/adaptive_system/graph_integration.py:141-145 | one more prediction appends exactly its weighted term |
| GraphIntegration.WeightedTermsMeaning | tradingagents/adaptive_system/graph_integration.py:141-144 | one weighted term per prediction with the same agent: the prediction times its normalised weight, or 0 for an agent without a weight |
| GraphIntegration.ApplySuggestions | tradingagents/adaptive_system/graph_integration.py:131-132 | the loop leaves the agent records and history as the suggested updates define them |
| GraphIntegration.WeightPredictions | tradingagents/adaptive_system/graph_integration.py:138-145 | the loop returns the weighted predictions and their exact sum |
| GraphIntegration.CalculateWeights | tradingagents/adaptive_system/graph_integration.py:96-155 | without predictions the data comes back unchanged with no update; otherwise the layer suggestions are applied, and the weighted predictions, their sum, the normalised weights and the weights read before the update are returned |
| StateAwareCoordinator.InferAgentType | tradingagents/adaptive_system/state_aware_coordinator.py:127-140 | the inferred type is one of trend_analyst, reversion_analyst, risk_analyst, range_analyst or analyst |
| StateAwareCoordinator.InferAgentTypeFirstGroup | tradingagents/adaptive_system/state_aware_coordinator.py:131-138 | the type of the first keyword group found in the lower-cased name wins |
| StateAwareCoordinator.InferAgentTypeDefault | tradingagents/adaptive_system/state_aware_coordinator.py:139-140 | a name holding no keyword is an "analyst" |
| StateAwareCoordinator.InferAgentTypeIgnoresCase | tradingagents/adaptive_system/state_aware_coordinator.py:129 | the inferred type does not depend on letter case |
| StateAwareCoordinator.LowerIdempotent | tradingagents/adaptive_system/state_aware_coordinator.py:129 | lower-casing twice is lower-casing once |
| StateAwareCoordinator.EntryOf | tradingagents/adaptive_system/state_aware_coordinator.py:104-109 | the history entry holds the symbol, the time, the recognised state (unknown when absent) and its confidence (0.0 when absent) |
| StateAwareCoordinator.States | tradingagents/adaptive_system/state_aware_coordinator.py:168-171 | the state of each history entry, position by position |
| StateAwareCoordinator.TransitionsCount | tradingagents/adaptive_system/state_aware_coordinator.py:162-177 | there is one transition per adjacent pair of entries whose states differ |
| StateAwareCoordinator.TransitionsAreChanges | tradingagents/adaptive_system/state_aware_coordinator.py:166-177 | the k-th transition goes from the earlier to the later state of the k-th change, with the later entry's time and symbol |
| StateAwareCoordinator.StatesSnoc | tradingagents/adaptive_system/state_aware_coordinator.py:168-171 | the states of a history without its last entry are the states without the last one |
| StateAwareCoordinator.TransitionsKeep | tradingagents/adaptive_system/state_aware_coordinator.py:166-177 | a change found in a shorter history is still described correctly in the longer one |
| StateAwareCoordinator.TransitionLast | tradingagents/adaptive_system/state_aware_coordinator.py:166-177 | a change added by the last entry is described correctly |
| StateAwareCoordinator.RegisteredRecord | tradingagents/adaptive_system/state_aware_coordinator.py:58 | a known agent keeps its record; an unknown one gets a fresh record of its inferred type with the initial weight |
| StateAwareCoordinator.RecordedStep | tradingagents/adaptive_system/state_aware_coordinator.py:57-59 | one more prediction registers its agent if new and records the prediction on its record |
| StateAwareCoordinator.RegisteredStep | tradingagents/adaptive_system/state_aware_coordinator.py:58-59 | registering then recording is recording on the registered record |
| StateAwareCoordinator.RecordedKeys | tradingagents/adaptive_system/state_aware_coordinator.py:57-59 | after the loop the known agents are the former ones plus every predicting agent |
| StateAwareCoordinator.RecordedUntouched | tradingagents/adaptive_system/state_aware_coordinator.py:57-59 | an agent without a prediction keeps its record |
| StateAwareCoordinator.RecordedPrediction | tradingagents/adaptive_system/state_aware_coordinator.py:57-59 | with distinct names, each predicting agent's record is its registered record with the prediction added |
| StateAwareCoordinator.RegisteredNamesIndex | tradingagents/adaptive_system/state_aware_coordinator.py:57-59 | the registration order names exactly the agents that have records |
| StateAwareCoordinator.GenerateSummaryAsWritten | tradingagents/adaptive_system/state_aware_coordinator.py:142-145 | no weights give the fixed "no weight information" text |
| StateAwareCoordinator.SummaryAsWrittenRaises | tradingagents/adaptive_system/state_aware_coordinator.py:152 | any weight makes the summary raise, because `np` is never imported |
| StateAwareCoordinator.GenerateSummary | tradingagents/adaptive_system/state_aware_coordinator.py:142-157 | no weights iff the no-information summary; otherwise the first agent of maximal weight, the mean weight, and the variance of the weights for two or more (0 for one), never negative |
| StateAwareCoordinator.SummaryMeanBelowTop | tradingagents/adaptive_system/state_aware_coordinator.py:148-152 | the mean weight is at most the top agent's weight |
| StateAwareCoordinator.AgentStatePerformance | tradingagents/adaptive_system/state_aware_coordinator.py:181-183 | always an error: the weight manager has no `analyze_state_performance` |
| StateAwareCoordinator.Coordinator.constructor | tradingagents/adaptive_system/state_aware_coordinator.py:23-35 | the coordinator holds the given manager and an empty state history |
| StateAwareCoordinator.Coordinator.Create | tradingagents/adaptive_system/state_aware_coordinator.py:23-27 | without a manager, the TypeError of `AdaptiveWeightManager(enable_market_state=True)` and no coordinator; with one, a fresh coordinator on that manager with empty history and log |
| StateAwareCoordinator.Coordinator.AnalyzeMarketState | tradingagents/adaptive_system/state_aware_coordinator.py:99-125 | a recognised result is returned and its entry appended to the history capped at the last 1000; a failure gives the unknown state with confidence 0 and leaves the history alone |
| StateAwareCoordinator.Coordinator.AnalyzeAndAdjust | tradingagents/adaptive_system/state_aware_coordinator.py:37-97 | the state is recorded, every predicting agent registered and its prediction recorded; any prediction then makes the result the `update_weight` keyword error, and only no predictions give a coordinated result |
| StateAwareCoordinator.Coordinator.RecordPredictions | tradingagents/adaptive_system/state_aware_coordinator.py:57-59 | the loop leaves the records and registration order the fold over the predictions defines |
| StateAwareCoordinator.Coordinator.GetStateTransitions | tradingagents/adaptive_system/state_aware_coordinator.py:159-179 | no transitions with fewer than two entries; otherwise the transitions within the last `lookback` entries |
| MarketConfig.AllStatesComplete | tradingagents/market_analysis/config.py:15-26 | the market-state enumeration has exactly ten members, each listed once |
| MarketConfig.StateValuesDistinct | tradingagents/market_analysis/config.py:15-26 | distinct market states have distinct values |
| MarketConfig.AllStrengthsComplete | tradingagents/market_analysis/config.py:29-34 | the trend-strength enumeration has exactly four members, each listed once |
| MarketConfig.DefaultConfig | tradingagents/market_analysis/config.py:42-52 | the defaults need 20 data points, a 1.5% trending threshold and volatility multipliers 1.5 and 0.5 |
| MarketConfig.Validate | tradingagents/market_analysis/config.py:75-85 | passes iff the trending threshold is positive, the high multiplier exceeds 1 and the low one lies strictly between 0 and 1, returning the config itself; otherwise the ValueError of the first failing guard, in source order |
| MarketConfig.DefaultValidates | tradingagents/market_analysis/config.py:42-85 | the default configuration passes validation |
| MarketConfig.DefaultRsiOrdered | tradingagents/market_analysis/config.py:55-58 | the default RSI thresholds are ordered oversold < neutral lower < neutral upper < overbought |
| MarketConfig.DefaultMaWeights | tradingagents/market_analysis/config.py:64-66 | the default moving-average weights sum to 1 |
| MarketUtils.PriceChange | tradingagents/market_analysis/utils.py:45-65 | 0 with fewer than periods+1 prices or a zero earlier price |
| MarketUtils.PriceChangeRoundTrip | tradingagents/market_analysis/utils.py:59-65 | applying the change to the earlier price gives back the last price |
| MarketUtils.PriceChangeSign | tradingagents/market_analysis/utils.py:59-65 | with a positive earlier price the change is positive exactly when the price rose |
| MarketUtils.ScaledBounds | tradingagents/market_analysis/utils.py:85-92 | a score between the smallest and largest scales into [0, 1] |
| MarketUtils.ScaledTop | tradingagents/market_analysis/utils.py:85-92 | the largest score scales to 1 |
| MarketUtils.ScaledMonotone | tradingagents/market_analysis/utils.py:85-92 | scaling keeps the order of two scores |
| MarketUtils.NormalizeScores | tradingagents/market_analysis/utils.py:68-92 | the same keys in order, every value in [0, 1], and all 0.5 when the values are equal |
| MarketUtils.NormalizeEnds | tradingagents/market_analysis/utils.py:68-92 | unless all values are equal, some score becomes 0 and some becomes 1 |
| MarketUtils.NormalizeMonotone | tradingagents/market_analysis/utils.py:68-92 | normalising keeps the order of the scores |
| MarketUtils.WindowEnding | tradingagents/market_analysis/utils.py:111-113 | the window is non-empty, at most `window` long, and ends with the state at i |
| MarketUtils.WindowMode | tradingagents/market_analysis/utils.py:115-121 | the counting loop returns the first most frequent state of the window |
| MarketUtils.SmoothStates | tradingagents/market_analysis/utils.py:95-124 | a sequence shorter than the window comes back unchanged; a non-positive window over a non-empty sequence raises; otherwise one state per position, each the most common of its window |
| MarketUtils.SmoothWindows | tradingagents/market_analysis/utils.py:109-124 | each output position is the most common state of the window ending there |
| MarketUtils.SmoothedIsMode | tradingagents/market_analysis/utils.py:115-121 | a smoothed state occurs in its window and no state occurs there more often |
| MarketUtils.MulDivBound | tradingagents/market_analysis/utils.py:159 | a copy index below (n - start) // L fits in the sequence |
| MarketUtils.RepetitionsFrom | tradingagents/market_analysis/utils.py:159-164 | the repetition count never drops below the copy it starts from |
| MarketUtils.RepetitionsMeaning | tradingagents/market_analysis/utils.py:159-164 | every counted copy equals the pattern and lies within the sequence |
| MarketUtils.FoundExtend | tradingagents/market_analysis/utils.py:166 | appending a pattern keeps every pattern found so far |
| MarketUtils.CountRepetitions | tradingagents/market_analysis/utils.py:155-164 | the inner loop returns the number of consecutive copies, starting from 2 |
| MarketUtils.DetectStatePatterns | tradingagents/market_analysis/utils.py:127-168 | a minimum of 0 or less raises ZeroDivisionError, and only then; otherwise [] when shorter than twice the minimum, every reported pattern is immediately repeated with its copy count, every repeated segment of at least the minimum length is reported, and patterns come by length, then start |
| MarketUtils.ScanWindows | tradingagents/market_analysis/utils.py:145-166 | one pattern length adds exactly the repeated windows of that length, in start order, after the shorter ones |
| MarketUtils.ScanAt | tradingagents/market_analysis/utils.py:146-166 | one window is reported exactly when the next segment repeats it, keeping the order |
| MarketUtils.StatesOf | tradingagents/market_analysis/utils.py:239 | each analysis's market state, "unknown" when absent |
| MarketUtils.Successful | tradingagents/market_analysis/utils.py:222 | exactly the analyses with a true success field, in order |
| MarketUtils.Confidences | tradingagents/market_analysis/utils.py:256-265 | all confidences iff every one is a number, each 0.0 when absent |
| MarketUtils.StampedGet | tradingagents/market_analysis/utils.py:246-274 | the merged copy has the merged state, confidence and count and every other field of the first analysis |
| MarketUtils.MergeByMajority | tradingagents/market_analysis/utils.py:234-251 | succeeds iff every state can be a dictionary key |
| MarketUtils.AddToGet | tradingagents/market_analysis/utils.py:266 | adding a confidence raises that state's total by it and no other |
| MarketUtils.TotalsValue | tradingagents/market_analysis/utils.py:262-266 | each state's total is the sum of the confidences of the analyses in that state |
| MarketUtils.AddToUnique | tradingagents/market_analysis/utils.py:266 | the totals keep one entry per state |
| MarketUtils.TotalsUnique | tradingagents/market_analysis/utils.py:262-266 | the totals hold each state once |
| MarketUtils.MergeByWeighted | tradingagents/market_analysis/utils.py:254-276 | a non-numeric confidence raises; a zero total falls back to the majority merge |
| MarketUtils.MergeAnalyses | tradingagents/market_analysis/utils.py:204-231 | {} for no analyses; a copy of the only or first analysis when there is one or none succeeded |
| MarketUtils.MajorityMerge | tradingagents/market_analysis/utils.py:234-251 | the merged state is an input state no less frequent than any other, with its share as confidence, the number merged, and the first analysis's other fields |
| MarketUtils.ShareBounds | tradingagents/market_analysis/utils.py:248 | a positive count out of n is a share in (0, 1] |
| MarketUtils.CountPositive | tradingagents/market_analysis/utils.py:240 | a present state has a positive count |
| MarketUtils.CountAtMost | tradingagents/market_analysis/utils.py:240 | no count exceeds the number of analyses |
| MarketUtils.WeightedMerge | tradingagents/market_analysis/utils.py:254-276 | with a non-zero total the merged state is an input state whose confidence sum is no less than any present state's, with the mean confidence and the number merged |
| MarketUtils.MergedFromSuccessful | tradingagents/market_analysis/utils.py:221-231 | merging two or more analyses with some success records the number of successful ones |
| MarketUtils.FlattenItems | tradingagents/market_analysis/utils.py:355-363 | every collected entry is flat and keyed under the parent's prefix |
| MarketUtils.FlattenDict | tradingagents/market_analysis/utils.py:352-364 | no nested dictionary remains and every key starts with the parent key |
| MarketUtils.PrefixExtends | tradingagents/market_analysis/utils.py:356 | a key under a longer prefix is under the shorter one |
| MarketUtils.FlattenScalars | tradingagents/market_analysis/utils.py:352-364 | a dictionary with distinct keys and no nested dictionaries or lists flattens to its own entries |
| MarketUtils.ScalarItems | tradingagents/market_analysis/utils.py:355-363 | from any entry on, scalar entries are kept as they are |
| TrendDetector.AvailableFrom | tradingagents/market_analysis/trend_detector.py:95-96 | exactly the listed keys present in the indicators, each with its value |
| TrendDetector.AlignmentCheckNeverApplies | tradingagents/market_analysis/trend_detector.py:132 | EMA_5 is never among the collected averages, so the alignment branch is dead |
| TrendDetector.MaReadings | tradingagents/market_analysis/trend_detector.py:105-108 | the readings succeed iff every present average is None or a number |
| TrendDetector.CountAbove | tradingagents/market_analysis/trend_detector.py:102-109 | the count of averages the price is above never exceeds their number |
| TrendDetector.VerdictOf | tradingagents/market_analysis/trend_detector.py:87-129 | no averages leave neutral, strength 0, "mixed"; otherwise bullish iff over 70% are below the price, with that share as strength; bearish under 30%, with the complement; neutral at 0.5; strength always in [0, 1] |
| TrendDetector.VerdictMirror | tradingagents/market_analysis/trend_detector.py:115-129 | swapping above and below swaps bullish and bearish and keeps the strength |
| TrendDetector.AnalyzeMovingAverages | tradingagents/market_analysis/trend_detector.py:85-148 | succeeds exactly when the readings are readable (every present average compares with the price); then the verdict of how many averages the price is above, its alignment, and one signal per average, in order |
| TrendDetector.CountAboveAverages | tradingagents/market_analysis/trend_detector.py:102-112 | the loop counts the averages below the price and emits one signal each |
| TrendDetector.PriceActionOf | tradingagents/market_analysis/trend_detector.py:150-186 | bullish iff the change exceeds a trend threshold, bearish iff it is not bullish and below a negated threshold, "sideways" exactly when neutral at strength 0.3; the strength is in [0, 1] |
| TrendDetector.AnalyzePriceAction | tradingagents/market_analysis/trend_detector.py:150-186 | fails iff the price change is not a number; otherwise the tiers of that change |
| TrendDetector.DefaultPriceActionTiers | tradingagents/market_analysis/trend_detector.py:150-186 | with the defaults a change above 1.5% is bullish and one below -1.5% bearish |
| TrendDetector.RsiStep | tradingagents/market_analysis/trend_detector.py:198-218 | RSI above overbought is bearish "overbought", below oversold bullish "oversold"; the strength never falls and the other signals are unchanged |
| TrendDetector.MacdStep | tradingagents/market_analysis/trend_detector.py:220-233 | MACD sets its signal from MACD against the signal line, sets a direction only when none is set, and never lowers the strength |
| TrendDetector.StochasticSignal | tradingagents/market_analysis/trend_detector.py:235-246 | "overbought" iff both lines exceed 80, "oversold" iff not and both are below 20 |
| TrendDetector.AnalyzeMomentum | tradingagents/market_analysis/trend_detector.py:188-248 | the strength stays in [0, 0.7]; without RSI and MACD the momentum is neutral at 0 |
| TrendDetector.MacdNeverOverridesRsi | tradingagents/market_analysis/trend_detector.py:198-233 | MACD never reverses a direction set by RSI |
| TrendDetector.CombineTrendSignals | tradingagents/market_analysis/trend_detector.py:250-311 | no directional score gives neutral with confidence 0.3; bullish iff its score exceeds 1.5 times the bearish one, bearish symmetrically, else neutral at 0.5; confidence is 1.5 times the strength capped at 0.95 |
| TrendDetector.CombinedBounds | tradingagents/market_analysis/trend_detector.py:250-311 | with non-negative component strengths the strength is in [0, 1] and the confidence in [0, 0.95] |
| TrendDetector.WinnersExclusive | tradingagents/market_analysis/trend_detector.py:294-299 | both sides can never win at once |
| TrendDetector.ScoreFlip | tradingagents/market_analysis/trend_detector.py:265-283 | flipping every component's direction swaps the bullish and bearish scores |
| TrendDetector.CombineSymmetric | tradingagents/market_analysis/trend_detector.py:250-311 | flipping every component flips the combined direction and keeps strength and confidence |
| TrendDetector.IdentifyTrendStrength | tradingagents/market_analysis/trend_detector.py:349-358 | strong above 0.8, moderate above 0.6, weak above 0.4, otherwise no trend |
| TrendDetector.TierMonotone | tradingagents/market_analysis/trend_detector.py:349-358 | a larger strength never falls into a lower tier |
| TrendDetector.ConfidenceLabel | tradingagents/market_analysis/trend_detector.py:313-347 | "高" iff the confidence exceeds 0.7, "低" iff it is at most 0.5 |
| TrendDetector.DescriptionFollowsTier | tradingagents/market_analysis/trend_detector.py:313-347 | a directional trend is described as strong exactly in the strong tier |
| TrendDetector.DetectTrend | tradingagents/market_analysis/trend_detector.py:24-83 | unsuccessful data gives its error with trend "unknown", strength "none" and confidence 0; successful data is detected exactly when its three readings succeed, and then the trend holds those readings of that data, their combination, confidence at most 0.95 and the matching description; a reading that raises gives its error |
| VolatilityAnalyzer.AtrLevel | tradingagents/market_analysis/volatility_analyzer.py:103-117 | ATR over price above 1.5% is high, above 0.8% medium, otherwise low |
| VolatilityAnalyzer.AnalyzeAtr | tradingagents/market_analysis/volatility_analyzer.py:89-119 | without an ATR the reading stays "normal" with zeros; a numeric ATR against a positive price gets the level of their ratio; only a present ATR can make the comparison raise |
| VolatilityAnalyzer.WidthStep | tradingagents/market_analysis/volatility_analyzer.py:133-141 | a width below 2% is a squeeze; the width is recorded and the position kept |
| VolatilityAnalyzer.PositionStep | tradingagents/market_analysis/volatility_analyzer.py:143-150 | above 0.8 the signal is near the upper band, below 0.2 near the lower band, otherwise the width signal stays |
| VolatilityAnalyzer.Reading | tradingagents/market_analysis/volatility_analyzer.py:130-131 | None iff the value is absent or None; otherwise the value as a number |
| VolatilityAnalyzer.AnalyzeBollingerBands | tradingagents/market_analysis/volatility_analyzer.py:121-152 | a squeeze iff a width below 2% is given; a given position overrides the signal near either band |
| VolatilityAnalyzer.RangeOf | tradingagents/market_analysis/volatility_analyzer.py:162-176 | on the absolute change: above 3% high, above 1.5% medium, below 0.5% low, otherwise normal |
| VolatilityAnalyzer.AnalyzePriceRange | tradingagents/market_analysis/volatility_analyzer.py:154-176 | fails iff the price change is not a number; otherwise the range tiers of it |
| VolatilityAnalyzer.LevelScore | tradingagents/market_analysis/volatility_analyzer.py:218-228 | every level scores in [0.1, 0.9]; a name outside the map scores 0.5 |
| VolatilityAnalyzer.BbScore | tradingagents/market_analysis/volatility_analyzer.py:191 | the Bollinger score is 0.8, 0.3 or 0.5 |
| VolatilityAnalyzer.ScoreLevel | tradingagents/market_analysis/volatility_analyzer.py:201-211 | above 0.7 high, above 0.5 medium-high, above 0.3 medium, above 0.2 low, otherwise very low |
| VolatilityAnalyzer.CombinedScore | tradingagents/market_analysis/volatility_analyzer.py:182-199 | the weighted score lies in [0.1, 0.9] |
| VolatilityAnalyzer.CombineVolatilitySignals | tradingagents/market_analysis/volatility_analyzer.py:178-216 | the level is the tier of the weighted score, which lies in [0.1, 0.9] |
| VolatilityAnalyzer.ReachableScoreRange | tradingagents/market_analysis/volatility_analyzer.py:178-216 | with the levels the ATR and range readings can produce, the score lies in [0.3, 0.87] |
| VolatilityAnalyzer.SqueezeWithWideRangeIsHigh | tradingagents/market_analysis/volatility_analyzer.py:178-216 | high ATR, a squeeze and a wide range give a high level at score 0.87 |
| VolatilityAnalyzer.Advice | tradingagents/market_analysis/volatility_analyzer.py:245-251 | high levels advise risk management; low levels warn of a breakout |
| VolatilityAnalyzer.AnalyzeVolatility | tradingagents/market_analysis/volatility_analyzer.py:23-87 | unsuccessful data gives its error with level "unknown", no squeeze and score 0; an analysed result is the ATR, Bollinger and range readings of that data and their combination, with a score in [0.1, 0.9] and the matching description and advice |
| MarketClassifier.LevelCandidates | tradingagents/market_analysis/market_classifier.py:127-135 | a non-empty list of key levels is used as it is; otherwise the support and resistance of the price ranges, when given |
| MarketClassifier.Summarize | tradingagents/market_analysis/market_classifier.py:150-158 | near support/resistance iff some key level of that kind was found, a breakout potential iff either, and the signal prefers support over resistance |
| MarketClassifier.AnalyzeSupportResistance | tradingagents/market_analysis/market_classifier.py:113-160 | the result is the support and resistance reading of the data: an unreadable price or level list raises, the first level that raises makes the scan raise, and a clean scan gives the summary of the key levels found |
| MarketClassifier.KeyLevelsFailStay | tradingagents/market_analysis/market_classifier.py:137-148 | once a level raises, the whole scan raises with that error |
| MarketClassifier.KeyLevelsAreNear | tradingagents/market_analysis/market_classifier.py:137-148 | every key level found is positive and within 2% of a non-zero price, and is a support exactly when the price is above it |
| MarketClassifier.DictArg | tradingagents/market_analysis/market_classifier.py:123 | a missing entry reads as {}; the read succeeds iff the entry is a dictionary |
| MarketClassifier.VolumeOf | tradingagents/market_analysis/market_classifier.py:175-188 | a ratio above 1.5 is a spike with high volume, above 1.2 above average, below 0.8 low volume, otherwise normal |
| MarketClassifier.AnalyzeVolume | tradingagents/market_analysis/market_classifier.py:162-190 | raises iff the indicators are not a dictionary; otherwise the volume reading of them |
| MarketClassifier.VolumeOfReadings | tradingagents/market_analysis/market_classifier.py:171-190 | without a volume or its 20-day average the defaults stay; a spike means the volume exceeds 1.5 times its average |
| MarketClassifier.BaseClassification | tradingagents/market_analysis/market_classifier.py:192-319 | a strong directional trend is trending bull or bear with confidence capped at 0.9 (high volatility) or 0.95; a neutral trend with volatility above 0.7 is volatile, below 0.3 low volatility; near a key level consolidation or breakout; otherwise ranging or uncertain by the price change |
| MarketClassifier.VolumeAdjusted | tradingagents/market_analysis/market_classifier.py:321-329 | high volume raises a trend's confidence by 10% and a breakout's by 20%, capped at 0.95; the states never change and nothing else is touched |
| MarketClassifier.ConfidenceDescription | tradingagents/market_analysis/market_classifier.py:433 | "极高" iff the confidence exceeds 0.8 |
| MarketClassifier.StateSummary | tradingagents/market_analysis/market_classifier.py:426-442 | the summary starts with the primary state's value |
| MarketClassifier.ClassifyMarket | tradingagents/market_analysis/market_classifier.py:192-345 | the state is the base classification's and the summary describes the result |
| MarketClassifier.TrendingConfidenceCapped | tradingagents/market_analysis/market_classifier.py:233 | a trending classification never has confidence above 0.95 |
| MarketClassifier.ConfidenceInRange | tradingagents/market_analysis/market_classifier.py:192-345 | with the trend confidence in [0, 0.95] and the volatility score in [0, 0.9], the confidence lies in [0, 0.95] |
| MarketClassifier.GenerateTradingSignals | tradingagents/market_analysis/market_classifier.py:347-424 | the base signal comes first and advice after; buy iff trending bull above 0.7 confidence, sell iff trending bear above 0.7; a second signal iff a confident bull in high volatility or a ranging, breakout or volatile state |
| MarketClassifier.RegimeOfState | tradingagents/market_analysis/market_classifier.py:501-509 | the two trends give trending, ranging and sideways give ranging, the two volatility states give volatile, the rest transitional |
| MarketClassifier.Plain | tradingagents/market_analysis/market_classifier.py:502-505 | a name without their first characters holds none of the trend or range words |
| MarketClassifier.States | tradingagents/market_analysis/market_classifier.py:471 | the state of each history entry, position by position |
| MarketClassifier.StateNames | tradingagents/market_analysis/market_classifier.py:487-493 | the value of each history entry's state, position by position |
| MarketClassifier.TransitionsPrefixStep | tradingagents/market_analysis/market_classifier.py:467-477 | one more entry adds a transition exactly when its state differs from the previous one |
| MarketClassifier.TransitionsCount | tradingagents/market_analysis/market_classifier.py:459-479 | one transition per adjacent pair of entries whose states differ |
| MarketClassifier.TransitionsAreChanges | tradingagents/market_analysis/market_classifier.py:467-477 | the k-th transition goes across the k-th change with its time and confidence change |
| MarketClassifier.StatesSnoc | tradingagents/market_analysis/market_classifier.py:471 | the states of a history without its last entry are the states without the last one |
| MarketClassifier.TransitionsKeep | tradingagents/market_analysis/market_classifier.py:467-477 | a change found in a shorter history is still described correctly in the longer one |
| MarketClassifier.TransitionLast | tradingagents/market_analysis/market_classifier.py:467-477 | a change added by the last entry is described correctly |
| MarketClassifier.RegimeFollowsMode | tradingagents/market_analysis/market_classifier.py:481-509 | a non-empty history has the regime of one of its last 20 states that occurs at least as often as any other |
| MarketClassifier.InputsOf | tradingagents/market_analysis/market_classifier.py:196-203 | the classifier reads the trend's name and confidence and the volatility level and score |
| MarketClassifier.ReportOf | tradingagents/market_analysis/market_classifier.py:75-96 | a successful report with the classification's state, confidence, trend sub-state ("N/A" when none) and signals |
| MarketClassifier.Classifier.constructor | tradingagents/market_analysis/market_classifier.py:20-25 | the classifier holds the config and an empty history |
| MarketClassifier.Classifier.UpdateStateHistory | tradingagents/market_analysis/market_classifier.py:444-457 | the entry is appended and only the last 100 kept |
| MarketClassifier.Classifier.ClassifyMarketState | tradingagents/market_analysis/market_classifier.py:27-111 | unsuccessful data is reported with its error and records nothing; successful data is classified exactly when the support-resistance and volume readings succeed, otherwise the first failing reading gives its error; a classified report holds the trend, volatility, support-resistance and volume readings of that data and their classification, and is appended to the history and log |
| MarketClassifier.Classifier.GetStateTransitions | tradingagents/market_analysis/market_classifier.py:459-479 | no transitions with fewer than two entries; otherwise those within the last `lookback` entries |
| MarketClassifier.Classifier.GetMarketRegime | tradingagents/market_analysis/market_classifier.py:481-509 | "unknown" for no history, else the regime of the most frequent of the last 20 states |
| StateRecognizer.ColumnIndex | tradingagents/market_analysis/state_recognizer.py:141-151 | the position of the first column with that name |
| StateRecognizer.Column | tradingagents/market_analysis/state_recognizer.py:141-151 | a column has one value per row |
| StateRecognizer.FirstMissing | tradingagents/market_analysis/state_recognizer.py:110-117 | none missing iff every required column is present; otherwise the first required column absent, all before it present |
| StateRecognizer.RequiredPresent | tradingagents/market_analysis/state_recognizer.py:110-117 | the column check passes iff open, high, low, close and volume are all present |
| StateRecognizer.Insert | tradingagents/market_analysis/state_recognizer.py:200 | inserting adds exactly one element |
| StateRecognizer.InsertMultiset | tradingagents/market_analysis/state_recognizer.py:200 | inserting adds exactly that value to the multiset |
| StateRecognizer.InsertSorted | tradingagents/market_analysis/state_recognizer.py:200 | inserting into a sorted list keeps it sorted |
| StateRecognizer.InsertFront | tradingagents/market_analysis/state_recognizer.py:200 | a value no larger than a sorted rest can lead it |
| StateRecognizer.SortAscending | tradingagents/market_analysis/state_recognizer.py:200 | the result is sorted and a permutation of the input |
| StateRecognizer.InsertUnique | tradingagents/market_analysis/state_recognizer.py:200 | adding to a strictly increasing list keeps it strictly increasing with exactly one more member value |
| StateRecognizer.SortedSet | tradingagents/market_analysis/state_recognizer.py:200 | `sorted(set(...))`: strictly increasing, with exactly the input's values |
| StateRecognizer.LevelCandidates | tradingagents/market_analysis/state_recognizer.py:186-197 | exactly five candidate levels (minimum, quartiles, median, maximum of the last 20 closes) |
| StateRecognizer.RoundedPositives | tradingagents/market_analysis/state_recognizer.py:200 | exactly the positive candidates rounded to 4 places |
| StateRecognizer.IdentifyKeyLevels | tradingagents/market_analysis/state_recognizer.py:177-205 | [] for fewer than 20 closes; otherwise strictly increasing, at most five, and exactly the positive candidates rounded to 4 places |
| StateRecognizer.IncreasingAtMost | tradingagents/market_analysis/state_recognizer.py:200 | distinct levels drawn from five candidates are at most five |
| StateRecognizer.DistinctBound | tradingagents/market_analysis/state_recognizer.py:200 | a strictly increasing list drawn from a list is no longer than it |
| StateRecognizer.KeyLevelsNonNegative | tradingagents/market_analysis/state_recognizer.py:200 | every key level is non-negative (rounding can reach 0) |
| StateRecognizer.TechnicalDataAsWritten | tradingagents/market_analysis/state_recognizer.py:99-175 | a missing column gives its failure; with all columns the truth test of the indicator frame raises, so the result is always a failure |
| StateRecognizer.LatestIndicators | tradingagents/market_analysis/state_recognizer.py:129-137 | exactly the non-price columns of the indicator frame, each with a number |
| StateRecognizer.LatestFrom | tradingagents/market_analysis/state_recognizer.py:135-137 | from any column on, exactly the non-price columns, each with a number |
| StateRecognizer.PriceChange | tradingagents/market_analysis/state_recognizer.py:148-153 | 0 for fewer than two closes; otherwise the relative change of the last close over the one before |
| StateRecognizer.Numbers | tradingagents/market_analysis/state_recognizer.py:156 | each level as a number, position by position |
| StateRecognizer.TechnicalData | tradingagents/market_analysis/state_recognizer.py:99-175 | a missing column gives its failure; success iff all columns are present, the frame has rows and the indicator frame is not empty, and then success is true |
| StateRecognizer.TechnicalDataFields | tradingagents/market_analysis/state_recognizer.py:158-167 | successful technical data holds success true and the latest indicators, price data and key levels of the frames |
| StateRecognizer.TechnicalDictReads | tradingagents/market_analysis/state_recognizer.py:158-167 | the success, indicator, price and key-level fields of the technical dictionary read back as written |
| StateRecognizer.AsWrittenNeverSucceeds | tradingagents/market_analysis/state_recognizer.py:120-127 | a frame with every column fails as written, while the intended version succeeds |
| StateRecognizer.Compile | tradingagents/market_analysis/state_recognizer.py:207-261 | the result has the symbol and stamp, succeeds iff classified, reports the classifier's state and confidence, and carries the error of a failed classification |
| StateRecognizer.SignalLines | tradingagents/market_analysis/state_recognizer.py:358-364 | at most the first three signals, each numbered from 1 with its action text |
| StateRecognizer.ReportBody | tradingagents/market_analysis/state_recognizer.py:333-376 | the report is framed by rules, titled with the symbol and states the market state |
| StateRecognizer.SubStateLines | tradingagents/market_analysis/state_recognizer.py:344-348 | one indented line per sub-state |
| StateRecognizer.ConditionLines | tradingagents/market_analysis/state_recognizer.py:351-355 | one bulleted line per condition |
| StateRecognizer.GenerateReport | tradingagents/market_analysis/state_recognizer.py:328-378 | a failed result gives "分析失败: " and its error; otherwise the report lines joined by newlines |
| StateRecognizer.ReportListsAtMostThree | tradingagents/market_analysis/state_recognizer.py:361 | no report lists more than three signals |
| StateRecognizer.SuccessfulStates | tradingagents/market_analysis/state_recognizer.py:389-393 | the successful analyses' states, never more than the analyses |
| StateRecognizer.StatisticsOf | tradingagents/market_analysis/state_recognizer.py:380-404 | no statistics iff the cache is empty; otherwise the total equals the cache size, successes are at most the total and the rate is in [0, 1] |
| StateRecognizer.DistributionCountsSuccesses | tradingagents/market_analysis/state_recognizer.py:386-393 | the state distribution counts every success exactly once |
| StateRecognizer.DistributionEntry | tradingagents/market_analysis/state_recognizer.py:386-393 | each state's count is the number of successful analyses in that state |
| StateRecognizer.Recognizer.constructor | tradingagents/market_analysis/state_recognizer.py:26-47 | the given or default configuration, validated, with a fresh classifier and empty cache and history |
| StateRecognizer.Recognizer.CacheAnalysis | tradingagents/market_analysis/state_recognizer.py:276-282 | the result is appended and only the last 50 kept |
| StateRecognizer.Recognizer.AnalyzeMarket | tradingagents/market_analysis/state_recognizer.py:49-97 | too little data or failed technical data gives the matching error result and changes nothing; otherwise the result is compiled exactly then, it is the compiled classifier report of that technical data, and it is cached |
| StateRecognizer.Recognizer.ClassifyAndCache | tradingagents/market_analysis/state_recognizer.py:78-93 | the classifier's report of the technical data is compiled and cached, and the classifier's log grows by that report |
| StateRecognizer.Recognizer.BatchAnalyze | tradingagents/market_analysis/state_recognizer.py:306-326 | one result per symbol, keyed by symbol, each symbol once; under each symbol the `analyze_market` outcome of its last frame: the insufficient-data error, the technical-data error, or the compiled report of a classification of its technical data |
| StateRecognizer.Recognizer.AnalyzeEntry | tradingagents/market_analysis/state_recognizer.py:318-320 | one loop step returns exactly an `analyze_market` outcome for that symbol's frame |
| StateRecognizer.LastValuesStep | tradingagents/market_analysis/state_recognizer.py:318-320 | storing the next symbol's result keeps every earlier symbol's last result readable under it |
| StateRecognizer.BatchOutcomes | tradingagents/market_analysis/state_recognizer.py:306-326 | when each symbol's last outcome is stored under it, each stored value is that frame's analysis |
| StateRecognizer.Recognizer.GetRecentAnalyses | tradingagents/market_analysis/state_recognizer.py:294-296 | Python's `[-count:]` of the cache: the last `count` results for a positive count, all for 0 |
| StateRecognizer.Recognizer.GetStatistics | tradingagents/market_analysis/state_recognizer.py:380-404 | the loop returns the statistics of the cache |
| StateRecognizer.Recognizer.GetMarketRegime | tradingagents/market_analysis/state_recognizer.py:298-300 | the classifier's regime |
| StateRecognizer.Recognizer.GetStateTransitions | tradingagents/market_analysis/state_recognizer.py:302-304 | the classifier's transitions |
| StateRecognizer.CountSuccesses | tradingagents/market_analysis/state_recognizer.py:387-393 | the loop counts the successes and the successful states |
| StateRecognizer.CountOne | tradingagents/market_analysis/state_recognizer.py:389-393 | one step of the loop keeps the counts those of the successes so far |
| StateRecognizer.StatisticsStep | tradingagents/market_analysis/state_recognizer.py:390-393 | a successful analysis adds its state to the successes |
| StateRecognizer.StatisticsSkip | tradingagents/market_analysis/state_recognizer.py:390 | a failed analysis adds nothing |
| StateRecognizer.CountsAppend | tradingagents/market_analysis/state_recognizer.py:393 | counting one more state bumps its count |
| StateRecognizer.BatchStep | tradingagents/market_analysis/state_recognizer.py:318-324 | storing the next symbol's result keeps the keys distinct and those of the symbols seen |
| StateRecognizer.PrefixHasKey | tradingagents/market_analysis/state_recognizer.py:318 | the symbols seen after one more are the earlier ones and that one |
| StateRecognizer.BatchKeys | tradingagents/market_analysis/state_recognizer.py:318-324 | with distinct symbols the keys follow the symbols in order |
| ConditionalLogic.ShouldContinue | tradingagents/graph/conditional_logic.py:14-44 | an empty message list is an error; otherwise the router goes to the analyst's tool node exactly when the last message carries tool calls, and to its clearing node exactly when it carries none |
| ConditionalLogic.NodesDistinct | tradingagents/graph/conditional_logic.py:14-81 | an analyst's tool node and its clearing node are different nodes |
| ConditionalLogic.ToolNodesDistinct | tradingagents/graph/conditional_logic.py:14-81 | two different analysts never share a tool node |
| ConditionalLogic.MacroScanConstant | tradingagents/graph/conditional_logic.py:55-63 | the scan over the tool calls ends at "tools_macroeconomic" whether or not a macro tool name is found |
| ConditionalLogic.MacroIgnoresToolNames | tradingagents/graph/conditional_logic.py:46-65 | the macroeconomic router decides exactly as the plain analyst routers do: the tool names never change the route |
| ConditionalLogic.DefaultLogic | tradingagents/graph/conditional_logic.py:9-12 | by default one debate round and one risk round |
| ConditionalLogic.ShouldContinueDebate | tradingagents/graph/conditional_logic.py:83-92 | the research manager exactly when the count reached twice the debate rounds; below it the bear researcher exactly when the current response starts with "Bull" |
| ConditionalLogic.ShouldContinueRisk | tradingagents/graph/conditional_logic.py:94-104 | the risk judge exactly when the count reached three times the risk rounds; below it Risky hands to Safe, Safe to Neutral and anyone else to Risky |
| ConditionalLogic.DebateAlternates | tradingagents/graph/conditional_logic.py:83-92 | below the limit, once the chosen researcher has spoken the other researcher is chosen next |
| ConditionalLogic.RiskRotation | tradingagents/graph/conditional_logic.py:94-104 | below the limit the risk discussion cycles through three distinct analysts and returns to the first after three hand-overs |
| TradingGraph.RecommendedAnalysts | tradingagents/graph/trading_graph.py:305-322 | the table's analysts for forex, equity, crypto and full; the quick pair technical and quantitative for every other strategy |
| TradingGraph.RecommendationsEndTechnical | tradingagents/graph/trading_graph.py:314-322 | every recommendation ends with the technical and then the quantitative analyst |
| TradingGraph.NewsRecommended | tradingagents/graph/trading_graph.py:314-322 | the news analyst is recommended exactly for forex, equity, crypto and full |
| TradingGraph.WithReportsKeeps | tradingagents/graph/trading_graph.py:193-196 | existing entries keep their value and position, missing report keys get "", no other key appears |
| TradingGraph.Entry | tradingagents/graph/trading_graph.py:391-400 | "无数据" for a missing or empty report; a report of at most 200 characters unchanged; a longer one cut to its first 200 characters plus "..." |
| TradingGraph.SummaryOver | tradingagents/graph/trading_graph.py:391-400 | on success one entry per field, in order, each the field's summary entry; an error exactly when some field's entry fails |
| TradingGraph.SummaryErrStays | tradingagents/graph/trading_graph.py:391-400 | the first failing report decides the error however many fields follow |
| TradingGraph.SummaryKeys | tradingagents/graph/trading_graph.py:382-402 | a summary's keys are exactly the five report names, in order |
| TradingGraph.StringReportsSummarize | tradingagents/graph/trading_graph.py:382-402 | a state whose reports are strings always has a summary, and a short report appears in it unchanged |
| TradingGraph.Graph.constructor | tradingagents/graph/trading_graph.py:128-130 | a new graph has no ticker, no current state and an empty state log |
| TradingGraph.Graph.AddReports | tradingagents/graph/trading_graph.py:194-196 | the loop adds the technical and quantitative report keys as the specification function does |
| TradingGraph.Graph.Propagate | tradingagents/graph/trading_graph.py:183-222 | records the ticker and the final state; a final state that cannot be logged (no company, no date, a debate state that is not a dictionary) raises and logs nothing; otherwise the log entry is stored under the trade date and the final state is returned with its processed decision, or an error when it has no decision |
| TradingGraph.LogEntry | tradingagents/graph/trading_graph.py:224-264 | raises exactly when the company or the date is missing or a debate state is not a dictionary, with the KeyError of the first missing key |
| TradingGraph.PresentReports | tradingagents/graph/trading_graph.py:239-241 | exactly the report fields the state holds, each with its value |
| TradingGraph.DebateCopy | tradingagents/graph/trading_graph.py:244-259 | a debate state that is not a dictionary raises; otherwise one entry per field, its value or its default |
| TradingGraph.LogEntryFields | tradingagents/graph/trading_graph.py:233-262 | a logged entry carries the company, the date, every report the state holds, and ends with the final decision |
| TradingGraph.Graph.GetAnalysisSummary | tradingagents/graph/trading_graph.py:367-402 | the summary of the given state, else of the last run's state; the error entry when there is neither |
| DataInterface.FirstCategory | tradingagents/dataflows/interface.py:195-200 | none exactly when no category lists the tool; otherwise the first category that lists it |
| DataInterface.CategoryIn | tradingagents/dataflows/interface.py:195-200 | succeeds exactly when some category lists the tool, with the first such category's name; otherwise the ValueError naming the tool |
| DataInterface.CategoryOfTool | tradingagents/dataflows/interface.py:47-83 | every tool of the category table is found under the category that lists it |
| DataInterface.GetVendor | tradingagents/dataflows/interface.py:202-213 | the tool-level vendor when a non-empty tool name is configured; otherwise the category's vendor, "default" when none |
| DataInterface.PrimaryVendors | tradingagents/dataflows/interface.py:231 | splitting the vendor setting on commas always gives at least one vendor |
| DataInterface.AppendMissing | tradingagents/dataflows/interface.py:244-247 | the list is kept as a prefix; the result holds exactly the list's and the vendors' members; the appended part has no repeats and nothing already in the list |
| DataInterface.FallbackVendors | tradingagents/dataflows/interface.py:240-247 | the primary vendors first, followed by each other registered vendor once |
| DataInterface.Collect | tradingagents/dataflows/interface.py:257-291 | every result comes from a registered vendor of the list whose call succeeded; in single-vendor mode at most one result |
| DataInterface.SingleStopsAtFirst | tradingagents/dataflows/interface.py:280-283 | in single-vendor mode the result is exactly that of the first registered vendor whose call succeeds |
| DataInterface.CollectEmpty | tradingagents/dataflows/interface.py:257-296 | nothing is collected exactly when no registered vendor of the list succeeds |
| DataInterface.CategorisedToolsRegistered | tradingagents/dataflows/interface.py:162-191 | after the quantitative tools are registered, every categorised tool has vendor implementations |
| DataInterface.CollectResults | tradingagents/dataflows/interface.py:252-291 | the loop collects exactly the specified results and counts at most one attempt per fallback vendor |
| DataInterface.RouteToVendor | tradingagents/dataflows/interface.py:215-304 | the method returns exactly the specified routing outcome |
| DataInterface.RouteFailsIffAllFail | tradingagents/dataflows/interface.py:293-296 | a categorised, registered tool fails with the RuntimeError exactly when every registered vendor's call fails |
| DataInterface.RouteSingleFirst | tradingagents/dataflows/interface.py:257-302 | with one primary vendor the route answers with the first registered vendor in fallback order whose call succeeds |
| DataInterface.CalendarPlaceholder | tradingagents/dataflows/interface.py:217-224 | the removed calendar method answers with its notice instead of raising |
| AlphaVantageCommon.GetApiKey | tradingagents/dataflows/vendors/alpha_vantage_common.py:10-15 | the key exactly when the variable is set and non-empty; otherwise the ValueError |
| AlphaVantageCommon.YearField | tradingagents/dataflows/vendors/alpha_vantage_common.py:25 | `%Y` reads four digits, a year of at most 9999 |
| AlphaVantageCommon.MonthField | tradingagents/dataflows/vendors/alpha_vantage_common.py:25 | `%m` reads one or two characters, a month from 1 to 12 |
| AlphaVantageCommon.DayField | tradingagents/dataflows/vendors/alpha_vantage_common.py:25 | `%d` reads one or two characters, a day from 1 to 31 |
| AlphaVantageCommon.HourField | tradingagents/dataflows/vendors/alpha_vantage_common.py:29 | `%H` reads one or two characters, an hour below 24 |
| AlphaVantageCommon.MinuteField | tradingagents/dataflows/vendors/alpha_vantage_common.py:29 | `%M` reads one or two characters, a minute below 60 |
| AlphaVantageCommon.SkipSpaces | tradingagents/dataflows/vendors/alpha_vantage_common.py:29 | the format's space consumes a run of whitespace and nothing else |
| AlphaVantageCommon.Checked | tradingagents/dataflows/vendors/alpha_vantage_common.py:25-31 | a parsed date is accepted exactly when its year is at least 1 and its day exists in its month |
| AlphaVantageCommon.ParsedValid | tradingagents/dataflows/vendors/alpha_vantage_common.py:24-30 | every parsed stamp is a valid date and time; a date alone is at midnight |
| AlphaVantageCommon.FixedDigits | tradingagents/dataflows/vendors/alpha_vantage_common.py:26-34 | exactly w decimal digits |
| AlphaVantageCommon.Pad | tradingagents/dataflows/vendors/alpha_vantage_common.py:26-34 | only digits, and exactly w of them for a number below 10^w |
| AlphaVantageCommon.ApiStampShape | tradingagents/dataflows/vendors/alpha_vantage_common.py:26-34 | a valid stamp prints as thirteen characters with 'T' in the ninth place |
| AlphaVantageCommon.FormatDatetimeForApi | tradingagents/dataflows/vendors/alpha_vantage_common.py:17-36 | a 13-character string with 'T' unchanged; a datetime printed; another string accepted exactly when it parses as a date or a date and time; any other type an error |
| AlphaVantageCommon.FormatIdempotent | tradingagents/dataflows/vendors/alpha_vantage_common.py:17-36 | formatting a formatted value gives it back |
| AlphaVantageCommon.TwoDigitFields | tradingagents/dataflows/vendors/alpha_vantage_common.py:25-29 | a two-digit month, day, hour or minute in range is read whole by its field |
| AlphaVantageCommon.PadTwoBack | tradingagents/dataflows/vendors/alpha_vantage_common.py:26-30 | printing a two-digit number read from the input gives its digits back |
| AlphaVantageCommon.PadFourBack | tradingagents/dataflows/vendors/alpha_vantage_common.py:26-30 | printing a four-digit year read from the input gives its digits back |
| AlphaVantageCommon.SpelledPrints | tradingagents/dataflows/vendors/alpha_vantage_common.py:24-30 | the printed stamp puts the input's digits in the API order |
| AlphaVantageCommon.DateOnlyForm | tradingagents/dataflows/vendors/alpha_vantage_common.py:24-26 | "YYYY-MM-DD" of an existing date becomes "YYYYMMDDT0000" |
| AlphaVantageCommon.DateTimeForm | tradingagents/dataflows/vendors/alpha_vantage_common.py:27-30 | "YYYY-MM-DD HH:MM" of an existing date and time becomes "YYYYMMDDTHHMM" |
| AlphaVantageCommon.Remove | tradingagents/dataflows/vendors/alpha_vantage_common.py:64-66 | popping a key leaves it absent and every other key as it was |
| AlphaVantageCommon.RequestParamsFields | tradingagents/dataflows/vendors/alpha_vantage_common.py:50-66 | the request carries the function, the key and the source; the caller's entitlement if truthy, else the module's if truthy, else none; every other parameter as given |
| AlphaVantageCommon.Information | tradingagents/dataflows/vendors/alpha_vantage_common.py:79-80 | on a decoded dictionary, its "Information" entry |
| AlphaVantageCommon.ClassifyFaithful | tradingagents/dataflows/vendors/alpha_vantage_common.py:74-99 | a JSON reply is what the text decodes to; a raw reply is the response text itself |
| AlphaVantageCommon.RateLimitExactly | tradingagents/dataflows/vendors/alpha_vantage_common.py:79-82 | a decoded dictionary raises the rate-limit error exactly when its string "Information" mentions the rate limit or the API key, in any case |
| AlphaVantageCommon.JsonWhenExpected | tradingagents/dataflows/vendors/alpha_vantage_common.py:84-95 | without an information message, news responses are JSON, and other dictionaries are JSON exactly when they have a known structure and raw text otherwise |
| AlphaVantageCommon.RequestNeedsKey | tradingagents/dataflows/vendors/alpha_vantage_common.py:44-99 | no key means the ValueError; an HTTP error status fails; otherwise the reply is the classification of the response to the parameters built |
| AlphaVantageCommon.MakeApiRequest | tradingagents/dataflows/vendors/alpha_vantage_common.py:44-99 | the steps compute exactly the specified reply |
| Common.ExceptionText | tradingagents/dataflows/vendors/alpha_vantage_economic.py:67 | `str(e)`: the message after the exception's class name, or the whole message when there is none |
| AlphaVantageCommon.DateError | tradingagents/agents/utils/technical_indicators_tools.py:333 | the strptime error exactly when the date does not parse: no match, text left after the match, year 0, or a day past the month's end, in that order |
| AlphaVantageEconomic.CompactDate | tradingagents/dataflows/vendors/alpha_vantage_economic.py:35-48 | a date is sent exactly when it is given and parses as "%Y-%m-%d" |
| AlphaVantageEconomic.CompactDateForm | tradingagents/dataflows/vendors/alpha_vantage_economic.py:38-39 | "YYYY-MM-DD" of an existing date is sent as "YYYYMMDD" |
| AlphaVantageEconomic.CalendarReads | tradingagents/dataflows/vendors/alpha_vantage_economic.py:32-58 | each parameter name reads back the value assigned to it |
| AlphaVantageEconomic.CalendarParamsFields | tradingagents/dataflows/vendors/alpha_vantage_economic.py:32-58 | each date as "YYYYMMDD" exactly when it parses; importance and countries exactly when non-empty; the limit as text exactly when non-zero |
| AlphaVantageEconomic.GetEconomicCalendar | tradingagents/dataflows/vendors/alpha_vantage_economic.py:12-67 | the parameters are the specified ones, and the result is the request's reply or, on any exception, the error dictionary |
| AlphaVantageEconomic.PickFirst | tradingagents/dataflows/vendors/alpha_vantage_economic.py:107-147 | a chain of `or` look-ups gives the first truthy field, or the default when none is truthy |
| AlphaVantageEconomic.UndatedIsUnknown | tradingagents/dataflows/vendors/alpha_vantage_economic.py:107 | an event without a date field is grouped under "Unknown" |
| AlphaVantageEconomic.ImportanceLabel | tradingagents/dataflows/vendors/alpha_vantage_economic.py:133-142 | high impact exactly for "high"/"High", medium exactly for "medium"/"Medium", low for everything else |
| AlphaVantageEconomic.MissingImportanceIsMedium | tradingagents/dataflows/vendors/alpha_vantage_economic.py:131 | an event without an importance field is shown as of medium impact |
| AlphaVantageEconomic.EventLines | tradingagents/dataflows/vendors/alpha_vantage_economic.py:126-169 | an event takes three to five lines, the last one blank |
| AlphaVantageEconomic.GroupStep | tradingagents/dataflows/vendors/alpha_vantage_economic.py:105-110 | a step succeeds exactly when the event is a dictionary with a hashable date |
| AlphaVantageEconomic.GroupedAllGroupable | tradingagents/dataflows/vendors/alpha_vantage_economic.py:104-110 | grouping succeeds only when every event can be grouped |
| AlphaVantageEconomic.GroupableGrouped | tradingagents/dataflows/vendors/alpha_vantage_economic.py:104-110 | grouping succeeds when every event can be grouped |
| AlphaVantageEconomic.GroupedOk | tradingagents/dataflows/vendors/alpha_vantage_economic.py:104-110 | grouping fails exactly when some event cannot be grouped |
| AlphaVantageEconomic.GroupedUnique | tradingagents/dataflows/vendors/alpha_vantage_economic.py:104-110 | each date has one group |
| AlphaVantageEconomic.GroupedPartition | tradingagents/dataflows/vendors/alpha_vantage_economic.py:104-110 | a date's group holds exactly the events dated so, in order, and a date has a group exactly when some event carries it |
| AlphaVantageEconomic.GroupedErrStays | tradingagents/dataflows/vendors/alpha_vantage_economic.py:105-110 | the first event that cannot be grouped decides the error of the whole list |
| AlphaVantageEconomic.WrapCount | tradingagents/dataflows/vendors/alpha_vantage_economic.py:120 | a date occurs among the wrapped dates as often as its string among the strings |
| AlphaVantageEconomic.SortedDates | tradingagents/dataflows/vendors/alpha_vantage_economic.py:120 | succeeds exactly for at most one date, all-text dates or all-number dates; the number of dates is kept, and number dates come out as a permutation ordered by value |
| AlphaVantageEconomic.SortByNumber | tradingagents/dataflows/vendors/alpha_vantage_economic.py:120 | the sort of number dates is ordered by value and a permutation of its input |
| AlphaVantageEconomic.SortedDatesOrdered | tradingagents/dataflows/vendors/alpha_vantage_economic.py:120 | string dates always sort, into a permutation of the dates in ascending order |
| AlphaVantageEconomic.ShownAreEarliest | tradingagents/dataflows/vendors/alpha_vantage_economic.py:120-122 | at most fifteen dates are shown, and none left out comes before a shown one |
| AlphaVantageEconomic.FirstList | tradingagents/dataflows/vendors/alpha_vantage_economic.py:86-98 | the events found by the fallback search are always a list |
| AlphaVantageEconomic.DisplayOfDatedEvents | tradingagents/dataflows/vendors/alpha_vantage_economic.py:69-171 | a non-empty "data" list of events dated by strings always gives a report |
| AlphaVantageEconomic.HeaderFirst | tradingagents/dataflows/vendors/alpha_vantage_economic.py:112-117 | the report starts with the title and the event count, whatever follows |
| AlphaVantageEconomic.RenderedHeader | tradingagents/dataflows/vendors/alpha_vantage_economic.py:112-117 | every report of events starts with the title and the number of events |
| AlphaVantageEconomic.ErrorReported | tradingagents/dataflows/vendors/alpha_vantage_economic.py:79-80 | a dictionary with an "error" entry is reported as that error |
| AlphaVantageEconomic.FailedRequestReported | tradingagents/dataflows/vendors/alpha_vantage_economic.py:62-80 | a failed request reaches the report as the API error text, the exception's message without its class name |
| AlphaVantageEconomic.NoEventsMessage | tradingagents/dataflows/vendors/alpha_vantage_economic.py:100-101 | a dictionary without an error and without events gives the fixed no-events message |
| AlphaVantageEconomic.EmptyDataMessage | tradingagents/dataflows/vendors/alpha_vantage_economic.py:86-101 | "data" holding an empty list gives the no-events message |
| AlphaVantageEconomic.GroupEvents | tradingagents/dataflows/vendors/alpha_vantage_economic.py:104-110 | the grouping loop computes exactly the specified groups or error |
| AlphaVantageEconomic.RenderDay | tradingagents/dataflows/vendors/alpha_vantage_economic.py:126-169 | the loop over a day's events produces exactly the specified lines |
| AlphaVantageEconomic.RenderBody | tradingagents/dataflows/vendors/alpha_vantage_economic.py:122-169 | the loop over the shown dates produces exactly the specified lines |
| AlphaVantageEconomic.FormatForDisplay | tradingagents/dataflows/vendors/alpha_vantage_economic.py:69-171 | the method returns exactly the specified report |
| AlphaVantageEconomic.GetEconomicCalendarFormatted | tradingagents/dataflows/vendors/alpha_vantage_economic.py:173-214 | the display of the calendar fetched for the two dates with the main economies by default; an exception becomes the error report with the exception's message |
| AlphaVantageNews.SlashesRemoved | tradingagents/dataflows/vendors/alpha_vantage_news.py:56 | removing slashes leaves none, and leaves a slash-free text unchanged |
| AlphaVantageNews.UpperKeepsSlashless | tradingagents/dataflows/vendors/alpha_vantage_news.py:56 | upper-casing never introduces a slash |
| AlphaVantageNews.FormattedTickerIdempotent | tradingagents/dataflows/vendors/alpha_vantage_news.py:56 | formatting a formatted ticker changes nothing |
| AlphaVantageNews.FormattedPair | tradingagents/dataflows/vendors/alpha_vantage_news.py:54-57 | "base/quote" with slash-free codes is sent as the two codes joined and upper-cased |
| AlphaVantageNews.JoinReplaced | tradingagents/dataflows/vendors/alpha_vantage_news.py:56 | removing the slash from "base/quote" joins the codes |
| AlphaVantageNews.DateParam | tradingagents/dataflows/vendors/alpha_vantage_news.py:34-44 | a date is sent exactly when it is given and formats, as the formatted value |
| AlphaVantageNews.AssignedReads | tradingagents/dataflows/vendors/alpha_vantage_news.py:31-57 | each distinct parameter name reads back the value assigned to it, or nothing |
| AlphaVantageNews.NewsParamsFields | tradingagents/dataflows/vendors/alpha_vantage_news.py:31-57 | the topics or "forex", "LATEST", the limit as text or "50", the formatted ticker exactly when it is not blank, each date exactly when given and formattable |
| AlphaVantageNews.GetNews | tradingagents/dataflows/vendors/alpha_vantage_news.py:9-60 | the parameters are the specified ones and the reply is that of the NEWS_SENTIMENT request |
| TechnicalIndicators.FirstListUnder | tradingagents/agents/utils/technical_indicators_tools.py:298-304 | always a list; a non-empty one is the value of one of the alternative keys; the empty list when no alternative key holds a list |
| TechnicalIndicators.SelectPoints | tradingagents/agents/utils/technical_indicators_tools.py:293-308 | the "data" entry first, else the first list among the alternative keys, else the dictionary itself as one bar when it has the four price fields, else nothing |
| TechnicalIndicators.ParsePriceData | tradingagents/agents/utils/technical_indicators_tools.py:266-319 | None fails with "数据为空"; a non-JSON string fails keeping at most 200 characters; a dictionary with a false "success" fails with its error or "未知错误"; a list passes unless empty; successful points are never empty |
| TechnicalIndicators.OtherTypeRefused | tradingagents/agents/utils/technical_indicators_tools.py:313-314 | a value of another type is refused, naming its type |
| TechnicalIndicators.SingleBarWrapped | tradingagents/agents/utils/technical_indicators_tools.py:306-308 | a single bar under no known key becomes the only point |
| TechnicalIndicators.Highest | tradingagents/agents/utils/technical_indicators_tools.py:76 | the maximum: one of the values and at least every value |
| TechnicalIndicators.Lowest | tradingagents/agents/utils/technical_indicators_tools.py:77 | the minimum: one of the values and at most every value |
| TechnicalIndicators.RatiosAscending | tradingagents/agents/utils/technical_indicators_tools.py:84-92 | the level keys are in ascending order of their ratio, so sorting them by value keeps their order |
| TechnicalIndicators.Window | tradingagents/agents/utils/technical_indicators_tools.py:72-75 | the last `lookback` rows, or all rows when there are fewer |
| TechnicalIndicators.FibonacciLevels | tradingagents/agents/utils/technical_indicators_tools.py:67-95 | the range is the high minus the low; seven levels, from "0.0" at the high to "1.0" at the low |
| TechnicalIndicators.FibonacciExtremes | tradingagents/agents/utils/technical_indicators_tools.py:72-77 | the high is the largest high and the low the smallest low of the window's rows |
| TechnicalIndicators.WindowExtremes | tradingagents/agents/utils/technical_indicators_tools.py:76-77 | the highest high and lowest low are attained by a row and bound every row |
| TechnicalIndicators.LevelFormula | tradingagents/agents/utils/technical_indicators_tools.py:84-92 | each level lies its ratio's share of the range below the high |
| TechnicalIndicators.LevelsDescend | tradingagents/agents/utils/technical_indicators_tools.py:84-92 | when no row's low exceeds its high, the levels fall from the high to the low as the ratio grows |
| TechnicalIndicators.NearestLevel | tradingagents/agents/utils/technical_indicators_tools.py:608-619 | none exactly when there are no levels; otherwise a level at the smallest distance, the first such in order, with that distance |
| TechnicalIndicators.Position | tradingagents/agents/utils/technical_indicators_tools.py:632 | "正好在" exactly on the level, "上方" exactly above it |
| TechnicalIndicators.RelativePosition | tradingagents/agents/utils/technical_indicators_tools.py:653 | "上方" exactly when the price is above the level |
| TechnicalIndicators.PositionsAgree | tradingagents/agents/utils/technical_indicators_tools.py:632-653 | the two positions agree except for a price exactly on the level, which the analysis calls below |
| TechnicalIndicators.Capitalize | tradingagents/agents/utils/technical_indicators_tools.py:391 | capitalizing keeps the length |
| TechnicalIndicators.FirstIn | tradingagents/agents/utils/technical_indicators_tools.py:398-402 | found exactly when some candidate is a column, and then a candidate that is a column |
| TechnicalIndicators.ColumnFor | tradingagents/agents/utils/technical_indicators_tools.py:384-402 | the field itself when it is a column; none exactly when neither it nor any of its five variants is a column |
| TechnicalIndicators.MappingPartition | tradingagents/agents/utils/technical_indicators_tools.py:381-405 | every field is either mapped to an existing column or reported missing, never both |
| TechnicalIndicators.ColumnMapping | tradingagents/agents/utils/technical_indicators_tools.py:381-402 | the loop builds exactly the specified mapping |
| TechnicalIndicators.FrameCheck | tradingagents/agents/utils/technical_indicators_tools.py:404-438 | passes exactly when all four price fields have a column and at least twenty rows remain, with all four mapped |
| TechnicalIndicators.AllMapped | tradingagents/agents/utils/technical_indicators_tools.py:404-406 | nothing is missing exactly when every price field has a column |
| TechnicalIndicators.SelfMapped | tradingagents/agents/utils/technical_indicators_tools.py:386-387 | fields that are columns themselves map to themselves |
| TechnicalIndicators.LowerCaseColumns | tradingagents/agents/utils/technical_indicators_tools.py:384-438 | a frame with the lower-case price columns and twenty rows passes with the identity mapping |
| TechnicalIndicators.TechnicalDataSucceeds | tradingagents/agents/utils/technical_indicators_tools.py:321-488 | the indicators are computed exactly when the date parses, the data yields points, the frame builds and passes its checks; the "no valid points" branch is never taken |
| TechnicalIndicators.RsiAdvice | tradingagents/agents/utils/technical_indicators_tools.py:721-729 | oversold exactly below 30, overbought exactly above 70, normal exactly in between |
| TechnicalIndicators.MacdAdvice | tradingagents/agents/utils/technical_indicators_tools.py:742-747 | a golden cross exactly when the MACD line is above its signal line |
| TechnicalIndicators.BandAdvice | tradingagents/agents/utils/technical_indicators_tools.py:811-819 | near the lower band exactly below 0.2, near the upper band exactly above 0.8 |
| TechnicalIndicators.Level | tradingagents/agents/utils/technical_indicators_tools.py:824-858 | high exactly above the upper threshold, low exactly at or below the lower one |
| TechnicalIndicators.StochAdvice | tradingagents/agents/utils/technical_indicators_tools.py:838-846 | oversold exactly when both lines are below 20, overbought exactly when both are above 80 |
| TechnicalIndicators.SmaLines | tradingagents/agents/utils/technical_indicators_tools.py:757-778 | the SMA section counts as found exactly when the average is not zero |
| TechnicalIndicators.KindOf | tradingagents/agents/utils/technical_indicators_tools.py:712-866 | an SMA request exactly when the lowered, stripped request starts with "sma_", its period the rest; likewise the EMA period |
| TechnicalIndicators.Section | tradingagents/agents/utils/technical_indicators_tools.py:712-866 | fails, with the division by zero, exactly for an ATR request at a zero price; otherwise found exactly when the request's indicator is available |
| TechnicalIndicators.CountFound | tradingagents/agents/utils/technical_indicators_tools.py:868-874 | at most the number of requests, and zero exactly when no request is found |
| TechnicalIndicators.SectionsOf | tradingagents/agents/utils/technical_indicators_tools.py:711-871 | one section per request, each computed on its own |
| TechnicalIndicators.CombineFacts | tradingagents/agents/utils/technical_indicators_tools.py:711-871 | the combination fails exactly when a section does, and otherwise counts the found sections |
| TechnicalIndicators.FoundInCounts | tradingagents/agents/utils/technical_indicators_tools.py:868-869 | counting found sections is counting requests whose indicator is found |
| TechnicalIndicators.SectionsFacts | tradingagents/agents/utils/technical_indicators_tools.py:711-871 | the sections fail exactly when some request is an ATR request at a zero price, and otherwise count exactly the found requests |
| TechnicalIndicators.AvailableLines | tradingagents/agents/utils/technical_indicators_tools.py:877-878 | one line per available indicator |
| TechnicalIndicators.FoundCounted | tradingagents/agents/utils/technical_indicators_tools.py:868-883 | the report counts exactly the found requests, never more than were requested |
| TechnicalIndicators.RsiRule | tradingagents/agents/utils/technical_indicators_tools.py:718-731 | an RSI request with a known RSI is found and signals by the 30/70 thresholds |
| TechnicalIndicators.ZeroPriceFails | tradingagents/agents/utils/technical_indicators_tools.py:852-857 | an ATR request at a zero price fails the sections with the division by zero |
| TechnicalIndicators.FailureReported | tradingagents/agents/utils/technical_indicators_tools.py:896-897 | a failing section replaces the whole report by the failure message |
| TechnicalIndicators.FirstErr | tradingagents/agents/utils/technical_indicators_tools.py:896-897 | the only error a combination can fail with is the ATR division by zero |
| TechnicalIndicators.IndicatorSections | tradingagents/agents/utils/technical_indicators_tools.py:710-871 | the loop over the requests computes exactly the specified sections and count |
| TechnicalIndicators.CombineStep | tradingagents/agents/utils/technical_indicators_tools.py:711-871 | one more request either fails the combination or appends its headed section and counts it when found |
| TechnicalIndicators.CombineErrStays | tradingagents/agents/utils/technical_indicators_tools.py:711-871 | the first failing section decides the error of every longer combination |
| TechnicalIndicators.ListAvailable | tradingagents/agents/utils/technical_indicators_tools.py:877-878 | the fallback loop lists exactly the specified lines |
| TechnicalIndicators.GetIndicators | tradingagents/agents/utils/technical_indicators_tools.py:667-897 | the method returns exactly the specified report |
| NewsDataTools.DaysBeforeDecember | tradingagents/agents/utils/news_data_tools.py:90-117 | the months before December hold 334 days, one more in a leap year |
| NewsDataTools.FirstDay | tradingagents/agents/utils/news_data_tools.py:90-117 | day numbers are never negative and only 0001-01-01 has number zero |
| NewsDataTools.PrevDay | tradingagents/agents/utils/news_data_tools.py:90-117 | the day before exists exactly after 0001-01-01, is a valid date and keeps the time of day |
| NewsDataTools.PrevDayNumber | tradingagents/agents/utils/news_data_tools.py:90-117 | the day before has the day number one less |
| NewsDataTools.NewYear | tradingagents/agents/utils/news_data_tools.py:90-117 | New Year's Eve is the day before the first of January |
| NewsDataTools.LastDayNumber | tradingagents/agents/utils/news_data_tools.py:90-117 | New Year's Eve comes 364 days after the first of January, 365 in a leap year |
| NewsDataTools.FirstDayNumber | tradingagents/agents/utils/news_data_tools.py:90-117 | the first of January follows all the days of the earlier years |
| NewsDataTools.MinusDays | tradingagents/agents/utils/news_data_tools.py:90-117 | subtracting days gives a valid date |
| NewsDataTools.MinusDaysNumber | tradingagents/agents/utils/news_data_tools.py:90-117 | going back n days succeeds exactly when n days exist before the date, and lowers the day number by n |
| NewsDataTools.BothDates | tradingagents/agents/utils/news_data_tools.py:96-97 | both parsed dates are valid |
| NewsDataTools.OpenAiLimit | tradingagents/agents/utils/news_data_tools.py:106-110 | 10 exactly when the limit is absent or above 10, 3 exactly below 3, nothing exactly from 3 to 10 |
| NewsDataTools.WideLimit | tradingagents/agents/utils/news_data_tools.py:121-123 | 50 exactly when the limit is absent or above 50, nothing otherwise |
| NewsDataTools.FillOpenAi | tradingagents/agents/utils/news_data_tools.py:85-110 | the OpenAI branch fills exactly the specified dates and limit |
| NewsDataTools.FillWide | tradingagents/agents/utils/news_data_tools.py:112-123 | the other-vendor branch fills exactly the specified dates and limit |
| NewsDataTools.OptimizeParameters | tradingagents/agents/utils/news_data_tools.py:61-137 | the method fills exactly the specified parameters |
| NewsDataTools.VendorPartKeeps | tradingagents/agents/utils/news_data_tools.py:84-131 | the vendor part sets only the dates and the limit |
| NewsDataTools.DatesKeep | tradingagents/agents/utils/news_data_tools.py:87-119 | the date steps set only the two dates |
| NewsDataTools.TickerAndTopics | tradingagents/agents/utils/news_data_tools.py:80-81 | the ticker and the topics are forwarded exactly when they are not None, as given |
| NewsDataTools.DatesThrough | tradingagents/agents/utils/news_data_tools.py:84-123 | under vendor awareness the dates sent are those of the date step |
| NewsDataTools.WindowReads | tradingagents/agents/utils/news_data_tools.py:91-119 | a default window reads back its start and end |
| NewsDataTools.OpenAiOneDay | tradingagents/agents/utils/news_data_tools.py:87-92 | OpenAI without dates: a one-day window ending now, failing only when there is no day before now |
| NewsDataTools.WideSevenDays | tradingagents/agents/utils/news_data_tools.py:114-119 | other vendors without dates: a seven-day window ending now, failing only when fewer than seven days precede now |
| NewsDataTools.WideGivenDatesDropped | tradingagents/agents/utils/news_data_tools.py:112-123 | other vendors with a date given send no date at all |
| NewsDataTools.OpenAiCutWindow | tradingagents/agents/utils/news_data_tools.py:93-104 | OpenAI with both dates: over a span above two days the end date as given and the start two days before it; otherwise no date |
| NewsDataTools.VerbatimReads | tradingagents/agents/utils/news_data_tools.py:125-131 | verbatim forwarding sets each given date and a non-None limit |
| NewsDataTools.TickerOnlyReads | tradingagents/agents/utils/news_data_tools.py:77-81 | before the vendor part there is no date and no limit |
| NewsDataTools.Verbatim | tradingagents/agents/utils/news_data_tools.py:125-131 | without vendor awareness the dates are sent exactly when given and the limit exactly when not None, and the call never fails |
| NewsDataTools.AwareLimit | tradingagents/agents/utils/news_data_tools.py:106-123 | under vendor awareness the limit follows the vendor's rule |
| NewsAnalyst.CacheKey | tradingagents/agents/analysts/news_analyst.py:55-58 | the key text contains more than the ticker: the limit, the days back and the hour follow it |
| NewsAnalyst.Lookup | tradingagents/agents/analysts/news_analyst.py:60-73 | data exactly when the key is present and its entry is younger than the time to live, and then the data stored under it |
| NewsAnalyst.GetSnoc | tradingagents/agents/analysts/news_analyst.py:80-83 | storing under a new key appends it and leaves every earlier entry readable |
| NewsAnalyst.DeleteAllKeepOut | tradingagents/agents/analysts/news_analyst.py:97-98 | the deletion loop removes exactly the entries whose keys it deletes |
| NewsAnalyst.KeepOutAgree | tradingagents/agents/analysts/news_analyst.py:97-98 | deleting two key lists that agree on the cache's keys leaves the same cache |
| NewsAnalyst.ExpiredKeysFrom | tradingagents/agents/analysts/news_analyst.py:92-95 | every collected key belongs to an expired entry |
| NewsAnalyst.KeepOutExpired | tradingagents/agents/analysts/news_analyst.py:89-98 | deleting the collected keys leaves exactly the unexpired entries |
| NewsAnalyst.UnexpiredMembers | tradingagents/agents/analysts/news_analyst.py:89-98 | an entry is left by cleaning exactly when it was in the cache and has not expired |
| NewsAnalyst.UnexpiredUnique | tradingagents/agents/analysts/news_analyst.py:89-98 | cleaning keeps every key naming one entry |
| NewsAnalyst.UnexpiredGet | tradingagents/agents/analysts/news_analyst.py:89-98 | after cleaning a key reads its old entry if that has not expired, and nothing otherwise |
| NewsAnalyst.NewsCache.constructor | tradingagents/agents/analysts/news_analyst.py:48-53 | a new cache is empty, has the given time to live and has counted no lookups |
| NewsAnalyst.NewsCache.Get | tradingagents/agents/analysts/news_analyst.py:60-73 | the lookup result, counting exactly one hit when data is returned and one miss otherwise; the entries are unchanged |
| NewsAnalyst.NewsCache.Set | tradingagents/agents/analysts/news_analyst.py:75-87 | the entry is stored with the time, cleaned when more than 100 entries are held; the counters are unchanged |
| NewsAnalyst.NewsCache.CleanExpired | tradingagents/agents/analysts/news_analyst.py:89-98 | the cache keeps exactly its unexpired entries |
| NewsAnalyst.NewsCache.HitRate | tradingagents/agents/analysts/news_analyst.py:100-109 | zero without lookups, otherwise hits over all lookups, always between 0 and 1 |
| NewsAnalyst.SetThenGet | tradingagents/agents/analysts/news_analyst.py:60-87 | stored data is read back under its key while it is younger than the time to live |
| NewsAnalyst.SetKeepsOthers | tradingagents/agents/analysts/news_analyst.py:75-98 | storing one key changes no later lookup of another key |
| NewsAnalyst.SmallCacheNotCleaned | tradingagents/agents/analysts/news_analyst.py:80-87 | up to 100 entries storing is a plain assignment |
| NewsAnalyst.CleanupExact | tradingagents/agents/analysts/news_analyst.py:89-98 | cleaning keeps exactly the entries at most the time to live old |
| NewsAnalyst.Article | tradingagents/agents/analysts/news_analyst.py:204-210 | an article is a dictionary |
| NewsAnalyst.BaseNews | tradingagents/agents/analysts/news_analyst.py:202-229 | one generic article, and a second exactly for EUR/USD and USD/JPY |
| NewsAnalyst.Prefix | tradingagents/agents/analysts/news_analyst.py:232 | Python's `s[:k]`, a negative k counting from the end |
| NewsAnalyst.FallbackNews | tradingagents/agents/analysts/news_analyst.py:196-236 | four entries, the feed being the first `limit` simulated articles |
| NewsAnalyst.FallbackFeedBounded | tradingagents/agents/analysts/news_analyst.py:231-236 | the feed holds at most `limit` articles for a non-negative limit, and "items" is the feed's length as text |
| NewsAnalyst.Tally | tradingagents/agents/analysts/news_analyst.py:386-388 | the total grows by one exactly for a bullish, bearish or neutral label |
| NewsAnalyst.Field | tradingagents/agents/analysts/news_analyst.py:386-393 | reading a field fails exactly when the entry is not a dictionary |
| NewsAnalyst.ItemOf | tradingagents/agents/analysts/news_analyst.py:385-394 | an entry raises exactly when it is refused (a dictionary title raises the slice error); otherwise the title is the text or list cut to 60, and the label is lower-cased |
| NewsAnalyst.Cut | tradingagents/agents/analysts/news_analyst.py:391 | slicing text or a list keeps its first n characters or elements |
| NewsAnalyst.CountLabel | tradingagents/agents/analysts/news_analyst.py:386-388 | never more than the items |
| NewsAnalyst.Aggregate | tradingagents/agents/analysts/news_analyst.py:385-394 | one item per entry, and the label counts sum to at most the number of entries |
| NewsAnalyst.AggregateCounts | tradingagents/agents/analysts/news_analyst.py:385-394 | each count is the number of processed items carrying that label |
| NewsAnalyst.AggregateFails | tradingagents/agents/analysts/news_analyst.py:385-394 | the pass fails exactly when one of its entries raises |
| NewsAnalyst.RefusedLast | tradingagents/agents/analysts/news_analyst.py:385-394 | some entry raises exactly when one of the front or the last does |
| NewsAnalyst.AggregateLast | tradingagents/agents/analysts/news_analyst.py:385-394 | the pass fails exactly when the pass over the front fails or the last entry raises |
| NewsAnalyst.Processed | tradingagents/agents/analysts/news_analyst.py:378-394 | at most 5 or 8 items, counts at most the items; no feed list means no items and zero counts |
| NewsAnalyst.ProcessFeed | tradingagents/agents/analysts/news_analyst.py:378-394 | the node's loop computes exactly the specified items and counts |
| NewsAnalyst.AggregateLoop | tradingagents/agents/analysts/news_analyst.py:385-394 | the loop computes exactly the specified pass |
| NewsAnalyst.ProcessEntry | tradingagents/agents/analysts/news_analyst.py:386-394 | one pass of the loop extends the result by exactly one entry |
| NewsAnalyst.AggregateErrStays | tradingagents/agents/analysts/news_analyst.py:385-394 | once an entry raises, the loop's result is that error |
| NewsAnalyst.NodeBounds | tradingagents/agents/analysts/news_analyst.py:384-394 | at most 5 items in fast mode and 8 otherwise, counts never above the items |
| NewsAnalyst.PairName | tradingagents/agents/analysts/news_analyst.py:263-285 | a non-empty pair is named as given |
| NewsAnalyst.Verdict | tradingagents/agents/analysts/news_analyst.py:265-281 | "数据不足" exactly with no counted label; "偏多" exactly when bullish beats both others; "偏空" exactly when bearish does and bullish does not; "中性震荡" otherwise |
| NewsAnalyst.KeyTitleLine | tradingagents/agents/analysts/news_analyst.py:291-295 | the key-news line is absent exactly when the first title cut to 40 is empty; a text title is named by its first 40 characters |
| NewsAnalyst.EmptyNewsMessage | tradingagents/agents/analysts/news_analyst.py:262-263 | no news gives the fixed message, whatever the counts |
| NewsAnalyst.AnalysisCarriesVerdict | tradingagents/agents/analysts/news_analyst.py:283-297 | with news the analysis states the counts and names the verdict of the counts |
| NewsAnalyst.Report | tradingagents/agents/analysts/news_analyst.py:427-457 | the model's reply exactly when time allows, the call succeeds and the stripped reply has at least 30 characters; the fallback analysis otherwise |
| NewsAnalyst.ShortReplyReplaced | tradingagents/agents/analysts/news_analyst.py:446-448 | a reply shorter than 30 characters once stripped is replaced by the fallback analysis |
| NewsAnalyst.Node | tradingagents/agents/analysts/news_analyst.py:348-517 | a late fetch gives the timeout notice; an analysed run counts at most 5 or 8 items with counts at most the items; the error notice exactly when processing an entry raises |
| MacroAnalyst.SplitHasTwo | tradingagents/agents/analysts/macro_analyst.py:17-19 | a text holding "/" splits into at least two parts, so both indexes exist |
| MacroAnalyst.SplitPair | tradingagents/agents/analysts/macro_analyst.py:16-25 | without "/", a six-character code splits 3 and 3 and anything else is USD/JPY |
| MacroAnalyst.PairRoundTrip | tradingagents/agents/analysts/macro_analyst.py:17-19 | a pair written base + "/" + quote reads back as that base and quote |
| MacroAnalyst.ExtraSlashDropped | tradingagents/agents/analysts/macro_analyst.py:17-19 | anything after a second slash is dropped |
| MacroAnalyst.NodePair | tradingagents/agents/analysts/macro_analyst.py:158 | the ticker itself when it has "/" or six characters, else "USD/JPY" |
| MacroAnalyst.NodePairDefault | tradingagents/agents/analysts/macro_analyst.py:158 | an unrecognised ticker is analysed as USD against JPY |
| MacroAnalyst.Shown | tradingagents/agents/analysts/macro_analyst.py:114 | a text result is shown as itself |
| MacroAnalyst.ShownAll | tradingagents/agents/analysts/macro_analyst.py:114 | one shown text per result, in order |
| MacroAnalyst.WordsPresent | tradingagents/agents/analysts/macro_analyst.py:130-131 | each keyword counts once; zero exactly when none occurs, all exactly when every one occurs |
| MacroAnalyst.MacroVerdict | tradingagents/agents/analysts/macro_analyst.py:133-138 | cautiously bullish exactly on more positive words, cautiously bearish exactly on more negative ones, neutral exactly on a tie |
| MacroAnalyst.AnalyzeToolResults | tradingagents/agents/analysts/macro_analyst.py:104-142 | a rate differential exactly when "rate" or "interest" occurs, an inflation level exactly for "inflation", upcoming data exactly for "calendar" or "event"; the verdict of the keyword counts and the summary naming it |
| MacroAnalyst.SummaryNamesCountAndVerdict | tradingagents/agents/analysts/macro_analyst.py:140 | the executive summary starts with the number of results and ends with the verdict |
| MacroAnalyst.UpIsBullish | tradingagents/agents/analysts/macro_analyst.py:127-134 | a result reading only "up" is cautiously bullish |
| MacroAnalyst.KeywordInsideWord | tradingagents/agents/analysts/macro_analyst.py:130 | keywords match inside words: "support" contains "up" |
| MacroAnalyst.FormatToolResult | tradingagents/agents/analysts/macro_analyst.py:144-150 | a text of at most 200 characters as it is, a longer one cut to 200 with "...", anything else by its type name, all after "- " |
| MacroAnalyst.FormattedBounded | tradingagents/agents/analysts/macro_analyst.py:144-150 | a rendered text is at most 205 characters and starts with the start of the text |
| MacroAnalyst.FormattedAll | tradingagents/agents/analysts/macro_analyst.py:41 | one rendered line per result, in order |
| MacroAnalyst.Collected | tradingagents/agents/analysts/macro_analyst.py:236-242 | a returned result is kept; a failure becomes a text naming the tool |
| MacroAnalyst.ToolResults | tradingagents/agents/analysts/macro_analyst.py:230-242 | one collected result per tool call, in order |
| MacroAnalyst.NodeReport | tradingagents/agents/analysts/macro_analyst.py:225-249 | the model's reply exactly when it called no tool; otherwise a structured report on the node's pair whose summary names the number of calls and whose verdict is the verdict of the collected results, with their data section |
| AdaptiveTradingGraph.DigitsEnd | adaptive_trading_graph.py:192-194 | the end of the run of digits at j: all digits before it, none at it |
| AdaptiveTradingGraph.SpacesEnd | adaptive_trading_graph.py:192-194 | the end of the run of white space at j (`\s*`) |
| AdaptiveTradingGraph.Decimal | adaptive_trading_graph.py:192-201 | an unsigned decimal reads as a non-negative number |
| AdaptiveTradingGraph.NumberAt | adaptive_trading_graph.py:192-201 | an unsigned pattern never captures a negative number |
| AdaptiveTradingGraph.MatchAt | adaptive_trading_graph.py:192-198 | a match at i starts with the key followed by ':' or '=' |
| AdaptiveTradingGraph.FirstMatch | adaptive_trading_graph.py:197-201 | the first of `re.findall`: a match at some position, none exactly when no position matches |
| AdaptiveTradingGraph.FirstMatchLeftmost | adaptive_trading_graph.py:197-201 | the match used is the one at the leftmost matching position |
| AdaptiveTradingGraph.PercentAt | adaptive_trading_graph.py:247 | a percentage is never negative |
| AdaptiveTradingGraph.FirstPercent | adaptive_trading_graph.py:247-249 | the first percentage of the text, none exactly when there is none |
| AdaptiveTradingGraph.KeywordFrom | adaptive_trading_graph.py:215-222 | with signals in [-1, 1], the keyword reading stays in [-1, 1] |
| AdaptiveTradingGraph.KeywordSignal | adaptive_trading_graph.py:207-222 | with signals in [-1, 1], the keyword reading stays in [-1, 1] |
| AdaptiveTradingGraph.KeywordFirstGroup | adaptive_trading_graph.py:215-222 | the first group with a keyword in the text decides: its signal, minus half of it when a keyword is negated; 0 when no group matches |
| AdaptiveTradingGraph.ReportSignalWith | adaptive_trading_graph.py:180-222 | the reading is in [-1, 1], and 0 for empty or non-text content |
| AdaptiveTradingGraph.ReportSignalAsWritten | adaptive_trading_graph.py:180-222 | the reading with the groups in the written order lies in [-1, 1] |
| AdaptiveTradingGraph.ReportSignal | adaptive_trading_graph.py:180-222 | the reading with the strong-sell group reachable lies in [-1, 1], and is 0 for empty or non-text content |
| AdaptiveTradingGraph.ExplicitSignal | adaptive_trading_graph.py:190-204 | an explicit "signal:" value settles the reading, clamped to [-1, 1], whatever keywords follow |
| AdaptiveTradingGraph.StrongSellUnreachable | adaptive_trading_graph.py:207-222 | as written neither -0.9 nor its negation 0.45 can come out |
| AdaptiveTradingGraph.StrongSellReading | adaptive_trading_graph.py:207-222 | a text holding only strong-sell keywords reads -0.6 as written and -0.9 with the groups reordered |
| AdaptiveTradingGraph.DefinitelySellExample | adaptive_trading_graph.py:207-222 | "definitely sell" reads -0.6 as written and -0.9 as intended |
| AdaptiveTradingGraph.DebateSignal | adaptive_trading_graph.py:224-234 | 0 for empty content or another side; 0.6 or 0.3 for a bull and -0.6 or -0.3 for a bear by whether the side's name occurs |
| AdaptiveTradingGraph.ParseDecision | adaptive_trading_graph.py:236-257 | 0 for an empty decision; a buy without a sell between 0.5 and 1; a sell without a buy -0.8; 0 otherwise; a non-text decision cannot be lower-cased |
| AdaptiveTradingGraph.DecisionExamples | adaptive_trading_graph.py:244-251 | a buy without a percentage is 0.8 |
| AdaptiveTradingGraph.Truncate | adaptive_trading_graph.py:259-265 | "" for empty or non-text input; the text when short enough; else its first max characters and "..." |
| AdaptiveTradingGraph.ReplaceSuffix | adaptive_trading_graph.py:145 | removing "_report" from a report field leaves the agent's base name |
| AdaptiveTradingGraph.ReportAgentNames | adaptive_trading_graph.py:133-155 | each report field is recorded under its agent's name, the five analysts renamed |
| AdaptiveTradingGraph.ReportAgentsDistinct | adaptive_trading_graph.py:133-155 | the report fields name distinct agents |
| AdaptiveTradingGraph.ReadReports | adaptive_trading_graph.py:143-158 | the loop over the report fields computes exactly the specified predictions |
| AdaptiveTradingGraph.ReportPredictionsNext | adaptive_trading_graph.py:143-158 | one more field records its signal when it is present and truthy |
| AdaptiveTradingGraph.ApplySignals | adaptive_trading_graph.py:173-176 | the loop over the signals computes exactly the specified overrides |
| AdaptiveTradingGraph.ExtractFromFinalState | adaptive_trading_graph.py:128-178 | the report fields first, then the numeric signals, exactly as specified |
| AdaptiveTradingGraph.ReportPredictionsNames | adaptive_trading_graph.py:143-158 | the report predictions name only agents of the fields read |
| AdaptiveTradingGraph.ReportPredictionRead | adaptive_trading_graph.py:143-158 | each field's agent reads its report's signal when the field is present and truthy |
| AdaptiveTradingGraph.ReportPredictionsStep | adaptive_trading_graph.py:143-158 | the last field decides its agent's prediction when it gives one |
| AdaptiveTradingGraph.OverrideRead | adaptive_trading_graph.py:173-176 | a numeric signal becomes its name's prediction; every other name keeps its prediction |
| AdaptiveTradingGraph.ExtractReport | adaptive_trading_graph.py:143-176 | without a same-named signal, an agent's prediction is its report's signal exactly when the field is present and truthy |
| AdaptiveTradingGraph.ExtractSignal | adaptive_trading_graph.py:173-176 | a numeric signal overrides whatever the reports gave its name |
| AdaptiveTradingGraph.NumDict | adaptive_trading_graph.py:97-103 | the predictions as a dictionary keep their names |
| AdaptiveTradingGraph.Enhanced | adaptive_trading_graph.py:96-121 | fails exactly when the original decision cannot be parsed; otherwise the state with the enhancement key set |
| AdaptiveTradingGraph.EnhancementOnlyKey | adaptive_trading_graph.py:116-121 | enhancing leaves every other key of the state as it was |
| AdaptiveTradingGraph.AdaptiveGraphEnhancer.constructor | adaptive_trading_graph.py:27-58 | a fresh adaptive system with the default agents registered, each with its listed type and the initial weight |
| AdaptiveTradingGraph.AdaptiveGraphEnhancer.EnhanceFinalState | adaptive_trading_graph.py:60-126 | an unusable state is returned unchanged with no agent changed; otherwise every extracted prediction is recorded and the state gets the enhancement of the weighted decision; history unchanged |
| AdaptiveExternalProcessor.TypeFrom | adaptive_external_processor_fixed.py:80-93 | the guessed type is one of analyst, researcher, trader, debator, manager |
| AdaptiveExternalProcessor.InferAgentType | adaptive_external_processor_fixed.py:78-93 | the guessed type is one of the five layers |
| AdaptiveExternalProcessor.TypeFromFirst | adaptive_external_processor_fixed.py:82-91 | the first rule whose keywords occur decides the type |
| AdaptiveExternalProcessor.TypeFromNone | adaptive_external_processor_fixed.py:92-93 | when no later rule's keywords occur the type is "analyst" |
| AdaptiveExternalProcessor.TypesDistinct | adaptive_external_processor_fixed.py:82-91 | the five keyword groups select five distinct types |
| AdaptiveExternalProcessor.TypeFromLater | adaptive_external_processor_fixed.py:82-93 | a later search never returns an earlier rule's non-default type |
| AdaptiveExternalProcessor.TypeFromOnly | adaptive_external_processor_fixed.py:82-93 | a non-default type is chosen exactly when its rule is the first whose keywords occur |
| AdaptiveExternalProcessor.InferFirstRule | adaptive_external_processor_fixed.py:78-93 | the name gets the type of the first rule with a keyword in its lower-cased form |
| AdaptiveExternalProcessor.InferDefault | adaptive_external_processor_fixed.py:92-93 | a name with no keyword of any rule is typed "analyst" |
| AdaptiveExternalProcessor.InferOnly | adaptive_external_processor_fixed.py:78-93 | researcher, trader, debator or manager exactly when that rule is the first to match (both directions) |
| AdaptiveExternalProcessor.AnalystBeforeResearch | adaptive_external_processor_fixed.py:82-83 | a name containing "analyst" is typed analyst whatever else it says |
| AdaptiveExternalProcessor.AutoRegistered | adaptive_external_processor_fixed.py:49-56 | afterwards exactly the old agents and the prediction keys are registered, and old records are untouched |
| AdaptiveExternalProcessor.AutoRegisteredNew | adaptive_external_processor_fixed.py:52-55 | a key not registered before gets a fresh record with the type guessed from its name |
| AdaptiveExternalProcessor.ExternalAdaptiveProcessor.constructor | adaptive_external_processor_fixed.py:18-30 | a fresh system; without a configuration file no agents; with one exactly the agents of its "agents" list; empty history |
| AdaptiveExternalProcessor.ExternalAdaptiveProcessor.RegisterUnknown | adaptive_external_processor_fixed.py:49-56 | the registration loop computes exactly the specified registration; weight history unchanged |
| AdaptiveExternalProcessor.ExternalAdaptiveProcessor.ProcessPredictions | adaptive_external_processor_fixed.py:43-76 | unknown agents registered, every prediction recorded, the weighted decision returned and appended to the history with time and context |
| AdaptiveExternalProcessor.ExternalAdaptiveProcessor.UpdateWithMarketResult | adaptive_external_processor_fixed.py:115-131 | each agent of the update file, or every registered agent without one, updated in turn with the file's actual change when given; agent order unchanged |
| AdaptiveExternalProcessor.NoFileLogs | adaptive_external_processor_fixed.py:122-129 | updating every registered agent logs one entry per agent, in registration order |
| AdaptiveExternalProcessor.ProcessedRecord | adaptive_external_processor_fixed.py:49-62 | after processing, every agent of the batch is registered; a new one holds a fresh record of its guessed type plus the prediction, a known one gains the prediction |
| AdaptiveLightweightIntegration.LearnStep | adaptive_lightweight_integration.py:57-63 | one pass of the prediction loop adds exactly the predicting agent to the registered agents |
| AdaptiveLightweightIntegration.Learned | adaptive_lightweight_integration.py:56-63 | after the prediction loop exactly the old agents and the predicting ones are registered |
| AdaptiveLightweightIntegration.LearnedRead | adaptive_lightweight_integration.py:56-63 | with distinct keys a predicting agent holds its old record, or a fresh analyst record, plus its prediction; others unchanged |
| AdaptiveLightweightIntegration.AnalystsAdded | adaptive_lightweight_integration.py:57-61 | the mapping gains exactly the unmapped predicting agents, each as "analyst"; old entries and distinct keys are kept |
| AdaptiveLightweightIntegration.MappingStep | adaptive_lightweight_integration.py:58-61 | one pass adds exactly the predicting name to the mapping's keys |
| AdaptiveLightweightIntegration.MappedOnly | adaptive_lightweight_integration.py:96-99 | the names the update loop acts on are exactly the given names the mapping holds, never more of them |
| AdaptiveLightweightIntegration.MappedOnlyAll | adaptive_lightweight_integration.py:91-99 | when every name is mapped the update loop acts on all of them |
| AdaptiveLightweightIntegration.MappingPut | adaptive_lightweight_integration.py:32 | `mapping[k] = v` keeps the keys distinct and adds exactly k |
| AdaptiveLightweightIntegration.LightweightAdaptiveIntegrator.constructor | adaptive_lightweight_integration.py:19-21 | a fresh adaptive system with no agents, no history and an empty mapping |
| AdaptiveLightweightIntegration.LightweightAdaptiveIntegrator.RegisterOne | adaptive_lightweight_integration.py:31-32 | the system registers the name when new; the mapping takes the type |
| AdaptiveLightweightIntegration.LightweightAdaptiveIntegrator.RegisterExistingAgents | adaptive_lightweight_integration.py:23-34 | every pair registered with the system and written into the mapping; history unchanged |
| AdaptiveLightweightIntegration.LightweightAdaptiveIntegrator.LearnOne | adaptive_lightweight_integration.py:57-63 | an unmapped agent is registered as an analyst, then its prediction recorded |
| AdaptiveLightweightIntegration.LightweightAdaptiveIntegrator.ProcessAgentPredictions | adaptive_lightweight_integration.py:36-79 | no predictions: the error and nothing changes; otherwise unmapped agents registered as analysts, predictions recorded, the weighted decision returned |
| AdaptiveLightweightIntegration.LightweightAdaptiveIntegrator.UpdateWithMarketResult | adaptive_lightweight_integration.py:81-101 | exactly the given (or all mapped) names the mapping holds are updated in order, and their number is the count; all mapped agents when no names are given |
| AdaptiveLightweightIntegration.LightweightAdaptiveIntegrator.TypeCounts | adaptive_lightweight_integration.py:168-170 | each type's number of mapped agents; the counts add up to the number of mapped agents |
| AdaptiveLightweightIntegration.LightweightAdaptiveIntegrator.MappedWeights | adaptive_lightweight_integration.py:172-176 | the current weight of each mapped agent, in mapping order, as read from the weight manager |
| AdaptiveLightweightIntegration.LightweightAdaptiveIntegrator.GetSystemSummary | adaptive_lightweight_integration.py:159-185 | the agent count and type counts; with agents, the mean and the (non-negative) variance of their weights and a minimum and maximum that are weights of the agents and bound all of them; 0 mean and variance and no extremes without agents |
| AdaptiveLightweightIntegration.RepeatedNameTypes | adaptive_lightweight_integration.py:30-32 | a name registered twice keeps the first type in the system but the last one in the mapping |
| BacktestCli.ConvertSymbol | cli/backtest_cli.py:76-90 | an unlisted symbol gets "=X" appended |
| BacktestCli.ConvertListed | cli/backtest_cli.py:78-88 | every listed symbol maps to its own ticker |
| BacktestCli.IndexIn | cli/backtest_cli.py:168 | the position found holds the decision date |
| BacktestCli.PadIndex | cli/backtest_cli.py:166 | forward fill: the last position dated at most the decision date, -1 when there is none, every later date after it |
| BacktestCli.EntryIndexMeaning | cli/backtest_cli.py:153-171 | no data, a date after the data and a row before the data or among the last five are the three errors; otherwise the last row dated at most the decision date, with five rows after it |
| BacktestCli.HoldingCurveUnique | cli/backtest_cli.py:184-202 | the holding rules fix the equity curve: two curves they allow are equal |
| BacktestCli.Hold | cli/backtest_cli.py:184-202 | the holding loop records a curve of at most `hold_days` points valued at the clamped exit rows, stopping only after a loss beyond 20% or a gain beyond 30% |
| BacktestCli.FinalIsLastPoint | cli/backtest_cli.py:191-213 | the final profit equals the curve's value at the last price held |
| BacktestCli.Report | cli/backtest_cli.py:224-237 | the reported hold days are the curve's length, the curve is kept, the maximum profit and loss are its rounded extremes |
| BacktestCli.RunBacktest | cli/backtest_cli.py:139-237 | the entry errors are passed on; no holding days raise IndexError; a success holds the specified curve and report; every valid entry with a nonzero price succeeds |
| BacktestCli.ReportFigures | cli/backtest_cli.py:205-232 | the reported profit is the rounded last point of the curve and the amount is 1% of the capital at that rate |
| BacktestCli.IntervalDays | cli/backtest_cli.py:308-314 | daily 1, monthly 30, anything else 7 days |
| BacktestCli.BatchDates | cli/backtest_cli.py:302-318 | the decision dates run from the start one step apart, none after the end, the next step past it; none exactly when the start is after the end |
| BacktestCli.BatchDatesIncreasing | cli/backtest_cli.py:316-318 | batch dates strictly increase |
| BacktestCli.Kept | cli/backtest_cli.py:330-334 | the batch keeps at most one result per date |
| BacktestCli.RunBatch | cli/backtest_cli.py:330-334 | the batch loop keeps exactly the successful results in date order |
| BacktestCli.KeptFromDates | cli/backtest_cli.py:330-334 | every kept result is the successful backtest of one of the dates |
| BacktestCli.TierMonotone | cli/backtest_cli.py:428-444 | a larger value never gets a worse grade |
| BacktestCli.TierBounds | cli/backtest_cli.py:428-444 | excellent exactly above the first threshold, poor exactly at or below the last |
| BacktestCli.AdviceAgreesWithGrades | cli/backtest_cli.py:467-485 | a strong recommendation needs excellent profit and Sharpe and a good drawdown; any recommendation a good profit; the warnings are exactly the losing results, the strongest exactly at -5% or below |
| BacktestCli.ShareAbove | cli/backtest_cli.py:493-504 | a win rate is a percentage between 0 and 100 |
| BacktestCli.CountAbove | cli/backtest_cli.py:493-494 | never more winners than results |
| BacktestCli.AllLosingAbandoned | cli/backtest_cli.py:522-535 | a batch that loses on every test is to be abandoned |
| BacktestCli.NoWinnersNoRate | cli/backtest_cli.py:493 | with no positive result the win count is 0 |
| CliAdaptiveSystem.Matching | cli/adaptive_system.py:93-111 | the filters keep at most every metric |
| CliAdaptiveSystem.MatchingSelected | cli/adaptive_system.py:98-109 | every kept metric passes the symbol, action and age filters and comes from the files |
| CliAdaptiveSystem.MatchingComplete | cli/adaptive_system.py:98-111 | every metric passing the filters is kept |
| CliAdaptiveSystem.FilterMetrics | cli/adaptive_system.py:93-113 | the loop with its `continue`s keeps exactly the filtered metrics in file order |
| CliAdaptiveSystem.Pnls | cli/adaptive_system.py:119 | one profit per metric, in order |
| CliAdaptiveSystem.Sharpes | cli/adaptive_system.py:120 | one Sharpe ratio per metric, in order |
| CliAdaptiveSystem.StatsOf | cli/adaptive_system.py:118-129 | the trade count is the number of metrics, the win rate a percentage, the recent trades the last ten |
| CliAdaptiveSystem.StatsOrdered | cli/adaptive_system.py:122-128 | the worst trade is at most the average, which is at most the best |
| CliAdaptiveSystem.PerformanceStats | cli/adaptive_system.py:83-129 | the empty dict exactly when no metric passes the filters; otherwise the statistics of the kept metrics |
| CliAdaptiveSystem.PatternsMeaning | cli/adaptive_system.py:161-180 | no pattern under three recent trades; a winning streak exactly when all recent trades won, a losing one exactly when all lost, never both |
| CliAdaptiveSystem.RecommendationsMeaning | cli/adaptive_system.py:182-220 | each recommendation exactly under its condition: negative average, win rate under 40, Sharpe under 0.5, losing streak |
| CliAdaptiveSystem.RecommendationsPriorities | cli/adaptive_system.py:182-220 | nothing else is recommended, and only the Sharpe item is of medium priority |
| CliAdaptiveSystem.AnalyzePerformance | cli/adaptive_system.py:139-159 | insufficient data exactly when there are no statistics or fewer than five trades |
| CliAdaptiveSystem.SummaryMeaning | cli/adaptive_system.py:149-153 | profitable exactly for a positive average, consistent exactly for a standard deviation below 5, good exactly for a Sharpe ratio above 1 |
| CliAdaptiveSystem.SquareBelow | cli/adaptive_system.py:151 | comparing non-negative deviations is comparing their squares, so the variance stands for the deviation |
| CliAdaptiveSystem.VolatilityPatternMeaning | cli/adaptive_system.py:176-177 | rising volatility is reported exactly when the recent deviation exceeds 1.5 times the overall one |
| CliAdaptiveSystem.HoldShortenedMeaning | cli/adaptive_system.py:245-246 | the holding period is shortened exactly when the deviation of the profits exceeds 8 |
| CliAdaptiveSystem.OptimizeParameters | cli/adaptive_system.py:222-228 | no statistics or fewer than ten trades return the parameters unchanged |
| CliAdaptiveSystem.ScaleGet | cli/adaptive_system.py:234-237 | scaling a parameter changes that one only, and only when present |
| CliAdaptiveSystem.ShortenHoldGet | cli/adaptive_system.py:245-247 | the holding rule changes only "hold_days", and only when present |
| CliAdaptiveSystem.LossAdjustedGet | cli/adaptive_system.py:232-236 | on a losing average the position size takes 0.8 and the stop loss 0.9; nothing else changes |
| CliAdaptiveSystem.StrengthAdjustedGet | cli/adaptive_system.py:232-241 | after both adjustments the position size carries its combined factor |
| CliAdaptiveSystem.OptimizeSteps | cli/adaptive_system.py:228-249 | with ten trades or more: the two adjustments, then the holding-period rule when the deviation exceeds 8 |
| CliAdaptiveSystem.OptimizedValues | cli/adaptive_system.py:222-249 | each optimised parameter: position size scaled, stop loss tightened on losses, holding period shortened to no less than 3 on high deviation, others unchanged, absent ones absent |
| CliAdaptiveSystem.OptimizedKeys | cli/adaptive_system.py:228-249 | optimising keeps the parameter names in their order |
| CliAdaptiveSystem.NextParams | cli/adaptive_system.py:349-355 | the five starting parameter names in order |
| CliAdaptiveSystem.NextThreshold | cli/adaptive_system.py:354 | the confidence threshold starts at the decision's confidence, or 0.7 without one |
| CliAdaptiveSystem.HighActions | cli/adaptive_system.py:339-342 | no more suggestions than recommendations |
| CliAdaptiveSystem.HighActionsMeaning | cli/adaptive_system.py:339-342 | an action is suggested exactly when it belongs to a high-priority recommendation |
| CliAdaptiveSystem.HighPrioritySuggestions | cli/adaptive_system.py:339-342 | the loop collects exactly the high-priority actions in order |
| CliAdaptiveSystem.FeedbackReport | cli/adaptive_system.py:314-345 | success exactly for a positive profit; a learning point above 5% or below -5%; no suggestions without an analysis |
| CliAdaptiveSystem.OnMainCliDecision | cli/adaptive_system.py:260-312 | a result exactly when symbol, action and date are all truthy and the backtest succeeds; then the backtest, its 30-day analysis, feedback and 90-day optimised parameters |
| CliAdaptiveSystem.FeedbackSuggestsHighOnly | cli/adaptive_system.py:336-342 | the feedback suggests exactly the actions of the high-priority recommendations |
| AdaptiveWorkflow.Recent | cli/adaptive_workflow.py:146-156 | the analysis keeps at most one record per file |
| AdaptiveWorkflow.RecentSound | cli/adaptive_workflow.py:150-154 | every kept record is of the symbol, with a timestamp no older than the cutoff |
| AdaptiveWorkflow.RecentComplete | cli/adaptive_workflow.py:146-156 | every readable file of the symbol within the lookback is kept |
| AdaptiveWorkflow.CollectRecords | cli/adaptive_workflow.py:146-156 | the loop with its `continue` on unreadable files keeps exactly the specified records |
| AdaptiveWorkflow.Pnls | cli/adaptive_workflow.py:161 | one profit per record, in order |
| AdaptiveWorkflow.PatternsOfLastThree | cli/adaptive_workflow.py:175-182 | fewer than three records show no pattern; otherwise only the last three matter |
| AdaptiveWorkflow.PatternsMeaning | cli/adaptive_workflow.py:175-182 | a winning streak exactly for three gains at the end, a losing streak exactly for three losses, at most one pattern |
| AdaptiveWorkflow.Analyze | cli/adaptive_workflow.py:158-173 | insufficient data, with the count, exactly under three records; otherwise the count and the patterns of all records |
| AdaptiveWorkflow.AnalysisBounds | cli/adaptive_workflow.py:161-171 | the win rate is a percentage, the worst trade at most the average at most the best, and both extremes are rounded profits of kept records |
| AdaptiveWorkflow.RecommendationsMeaning | cli/adaptive_workflow.py:198-205 | reduce the position exactly for a negative reported average, which needs a losing mean; refine the signals exactly for a win rate under 40; both of high priority |
| AdaptiveWorkflow.Simulate | cli/adaptive_workflow.py:97-121 | the simulation keeps the symbol, date and action and enters at 1.1 |
| AdaptiveWorkflow.SimulatedPnlBounds | cli/adaptive_workflow.py:107-115 | the simulated profit lies in [-20, 20] whatever the draw, and inside the clip is the draw plus three per unit of confidence above 0.5, rounded |
| AdaptiveWorkflow.RunBacktest | cli/adaptive_workflow.py:82-95 | simulated exactly when the engine is missing or raised; otherwise the engine's own result or error dict |
| AdaptiveWorkflow.FeedbackMeaning | cli/adaptive_workflow.py:184-196 | exactly one suggestion: keep the logic exactly when the backtest gained, re-check the entry otherwise |
| AdaptiveWorkflow.SavedRecordCounted | cli/adaptive_workflow.py:123-156 | the record just saved is always part of the analysis that follows it |
| AdaptiveWorkflow.Workflow.constructor | cli/adaptive_workflow.py:27-41 | the workflow starts on the directory's existing files |
| AdaptiveWorkflow.Workflow.ProcessDecision | cli/adaptive_workflow.py:43-80 | a missing symbol, date or action raises KeyError, in that order, and saves nothing; otherwise the record saved under its id and the analysis, feedback and fixed parameters built on the directory with it |
| MockBacktest.Signals | mock_backtest_demo_fixed.py:93-103 | one signal per row, each 0 or 1, and 1 exactly where the short average is above the long one |
| MockBacktest.Positions | mock_backtest_demo_fixed.py:105-106 | no value on the first row, then the change of the signal from the row before |
| MockBacktest.PositionCrossings | mock_backtest_demo_fixed.py:96-106 | a buy row is exactly one where the short average crosses above the long one, a sell row exactly one where it crosses below |
| MockBacktest.StrategyRows | mock_backtest_demo_fixed.py:75-108 | one row per close, keeping its date and price |
| MockBacktest.Pairing | mock_backtest_demo_fixed.py:164-185 | an open position always has a positive entry price |
| MockBacktest.Returns | mock_backtest_demo_fixed.py:189-190 | one return per trade, in order |
| MockBacktest.Winners | mock_backtest_demo_fixed.py:189 | never more winners than trades |
| MockBacktest.Summary | mock_backtest_demo_fixed.py:188-194 | 0 and 0 without trades; otherwise the win rate is 100 times winners over trades, a percentage |
| MockBacktest.WinShare | mock_backtest_demo_fixed.py:190 | a share of winners times 100 lies in [0, 100] |
| MockBacktest.CountWinners | mock_backtest_demo_fixed.py:189 | the loop counts exactly the trades with a positive return |
| MockBacktest.PairRows | mock_backtest_demo_fixed.py:159-185 | the row loop computes exactly the specified pairing |
| MockBacktest.AnalyzeTrades | mock_backtest_demo_fixed.py:151-196 | with no non-zero position: no trades, 0 and 0; otherwise the paired trades with their win rate and average return |
| MockBacktest.StrategyNeverFlat | mock_backtest_demo_fixed.py:105-156 | the strategy's own frame starts with a NaN position, so a non-empty frame is never all flat |
| MockBacktest.PairingWellFormed | mock_backtest_demo_fixed.py:172-183 | each trade's return is (exit/entry - 1) * 100 and its holding time exit minus entry |
| MockBacktest.StepOrdered | mock_backtest_demo_fixed.py:164-185 | one more row on a later date keeps the trades ordered |
| MockBacktest.PairingOrdered | mock_backtest_demo_fixed.py:164-185 | on increasing dates the loop state is ordered up to the last row seen |
| MockBacktest.TradesSequential | mock_backtest_demo_fixed.py:164-185 | on increasing dates trades never overlap and each exits after it enters |
| MockBacktest.PairingFromRows | mock_backtest_demo_fixed.py:164-185 | every trade enters at a buy row's close and exits at a later sell row's close |
| MockBacktest.FromRowsGrow | mock_backtest_demo_fixed.py:164-185 | what holds of the rows seen so far holds once one more row is seen |
| StockReferences.LineRefsSound | scan_stock_references.py:34-44 | every reference names a 1-based line of the file that mentions `get_stock_data`, carrying it stripped |
| StockReferences.LineRefsComplete | scan_stock_references.py:34-44 | every line that mentions the name is reported |
| StockReferences.LineRefsIncreasing | scan_stock_references.py:35-36 | references come in line order, so no line is reported twice |
| StockReferences.ScanLines | scan_stock_references.py:35-44 | the line loop collects exactly the specified references |
| StockReferences.ScanFiles | scan_stock_references.py:6-49 | the walk collects exactly the references of the files with a scanned extension, file after file |
| StockReferences.Classify | scan_stock_references.py:63-75 | the category chosen passes its own test and no earlier test passes; it raises exactly when none of the first three tests passes and the line has a '#' but not the name |
| StockReferences.CommentedOutIndex | scan_stock_references.py:72 | the index comparison means exactly that a '#' comes before every occurrence of the name |
| StockReferences.FirstHashBefore | scan_stock_references.py:72 | a first '#' ahead of the first occurrence comes before every occurrence |
| StockReferences.HashBeforeFirst | scan_stock_references.py:72 | a '#' before every occurrence puts the first '#' before the first occurrence |
| StockReferences.IndexOfFirst | scan_stock_references.py:72 | `index` finds the first occurrence |
| StockReferences.ClassifyIgnoresCase | scan_stock_references.py:64 | matching is on the lower-cased line, so an upper-cased line falls into the same category |
| StockReferences.ScannedLineClassifies | scan_stock_references.py:37-75 | a line the scan reports never makes the analysis raise |
| StockReferences.Add | scan_stock_references.py:66-75 | appending to one list leaves the other four as they were |
| StockReferences.AnalyzeReferences | scan_stock_references.py:51-77 | the loop computes exactly the specified categories, or the error that stopped it |
| StockReferences.AnalyzedErrStays | scan_stock_references.py:63-75 | once the loop has raised the result stays that error |
| StockReferences.UnclassifiableLast | scan_stock_references.py:63-75 | some reference raises exactly when an earlier one does or the last one does |
| StockReferences.AnalyzedFails | scan_stock_references.py:63-75 | the analysis fails exactly when some reference has a '#' but no mention of the name |
| StockReferences.AnalyzedPartition | scan_stock_references.py:63-75 | every reference lands in the list of its own category and in no other, in input order |
| StockReferences.AnalyzedTotal | scan_stock_references.py:63-75 | the five lists together hold as many references as the input |
| StockReferences.ScanAnalyzes | scan_stock_references.py:6-77 | the references a scan of one file yields are all classified |

## Left out

- Input and output are parameters or left out. This covers HTTP requests to the data vendors, LLM and LangChain calls, console printing, Rich tables and panels, plotting and logging.
- File persistence is left out: the configuration file side of save and load, `_save_enhancement`, `_save_result_to_file`, `process_from_file`, `create_config_for_graph`, `PerformanceDatabase.save_result` and `_extract_metrics`, and `save_single_result` and `save_batch_results`. The directory walk of `scan_stock_references.py` is modelled over a given list of (path, text) pairs. The CLI workflow's data directory is a field holding the parsed files.
- Wall-clock time and timings are left out. "Now", the hour bucket and formatted stamps are parameters, and analysis durations are not modelled.
- Randomness is left out: `random_search`, the genetic loop and `create_evaluation_function` in `optimization.py`, `generate_simulated_data`, `_create_mock_data`, `generate_mock_stock_data`, and `simulate_learning_cycle` and `create_standalone_adaptive_system` in `adaptive_lightweight_integration.py`. The draws of `_simulate_backtest` are a parameter. Its md5 seed and the numpy generator are not modelled.
- Concurrency is left out. The `NewsCache` lock is not modelled and the cache is sequential. `call_llm_with_timeout` and its thread pool are not modelled.
- The md5 hash of the news cache key is left out. The key is the text that would be hashed.
- pandas, numpy and scipy numerics are left out. This covers RSI, MACD, Bollinger, stochastic, ATR, rolling and EWM in `technical_indicators_tools.py:24-129`, the Sharpe ratio and drawdown of `run_backtest`, `calculate_returns` in `mock_backtest_demo_fixed.py`, `calculate_confidence_interval`, and the log-return deviations of `enhanced_layer_manager.py`. These enter the model as given numbers.
- Standard deviations are carried as variances, since `real` has no square root. Where the source compares a deviation with a threshold, the model compares the variance with the squared threshold. `CliAdaptiveSystem.SummaryMeaning`, `CliAdaptiveSystem.VolatilityPatternMeaning` and `CliAdaptiveSystem.HoldShortenedMeaning` prove these comparisons equivalent for any deviation whose square is the variance. Three deviations are reported values rather than comparisons, and each is carried as its square (next lines).
- AdaptiveLightweightIntegration.LightweightAdaptiveIntegrator.GetSystemSummary: reports the variance of the weights where `weight_std` (adaptive_lightweight_integration.py:181) is its square root.
- AdaptiveWorkflow.Analyze: reports the variance of the profits where `std_pnl` (cli/adaptive_workflow.py:165) is its square root rounded to two places.
- StateAwareCoordinator.GenerateSummary: carries the spread as the variance of the weights where `weight_std` (state_aware_coordinator.py:153) is its square root. The summary text is not built.
- numpy's percentile is modelled by linear interpolation.
- Number formatting inside summary and report strings is left out, beyond the fields that contracts state.
- String case mapping and whitespace stripping are ASCII only.
- Directory listing order (glob) is taken as given.
- Data fetching in the enhanced layer manager is left out: `get_market_data`, `_parse_technical_data` and `detect_regime_from_data`. Only the pair parsing of `get_macro_data` is modelled.
- Several helpers in `tradingagents/market_analysis/utils.py` are left out: `validate_dataframe`, `calculate_confidence_interval`, `generate_analysis_summary`, `save_analysis_to_file` and `load_config_from_dict`.
- Parts of the graph integration are left out: `get_weighted_path`, `visualize_integration`, the weight-calculator objects, and networkx attribute details beyond nodes, edges and the recorded weight nodes.
- Vendor code is left out: `_filter_csv_by_date_range` (pandas), `get_news_data_direct`, `create_fast_prompt` and the prompt texts. The router, `get_technical_indicators_data` and `list_available_indicators` of the technical tools are also left out.
- Only parts of two report texts are modelled. For `get_fibonacci_levels`, the nearest-level search and the relative position are modelled, not the report text. For `create_structured_macro_report`, the summary and the data section are modelled, not the full text.
- The debate state of `_extract_from_final_state` is never read, because `hasattr` on a dict is false. The model therefore reads no debate state.
- `AdaptiveGraphEnhancer.update_with_market_result` is not modelled. It only calls `update_with_result`, which raises the TypeError of the first finding.
- `AdaptiveExternalProcessor.ExternalAdaptiveProcessor.UpdateWithMarketResult` and `AdaptiveLightweightIntegration.LightweightAdaptiveIntegrator.UpdateWithMarketResult` update through the corrected `update_with_result` of the first finding. As written, each call raises that TypeError after recording the actual value.
- `StateAwareCoordinator.Coordinator.AnalyzeAndAdjust` models the weight update as written. `update_weight` is called with keywords it does not accept, so that call fails, and the outcome records the failure. `StateAwareCoordinator.AgentStatePerformance` always errors, because the weight manager has no `analyze_state_performance`.
- Python's aliasing of mutable records is left out. `AgentRecord` is a value held in the manager's map, so a record handed out by `get_all_records` is a copy, not the live object. Its `last_updated` stamp is left out.
- `AdaptiveConfig.FromDict` accepts only values of the field's own kind. A Python dataclass would store any value, and the model reports an error instead.
- Optimization.GridSearch: models the enumeration and the selection of the best score. The source's final return raises NameError (see "## Findings").
- The `MockMainCLI` class, `auto_test`, `analyze_history`, `backtest_single`, `backtest_batch` and `run_advanced_backtest` are left out as console drivers. Their rules are modelled where the core uses them: batch dates, the batch loop and the evaluation tiers. The `main` functions and demo scripts are left out.
- Imports missing in `integrated_system.py` and `tradingagents/market_analysis/utils.py:367` are taken as present. The modelled functions do not depend on them.
- AdaptiveTradingGraph.ReadReports, AdaptiveTradingGraph.ReportPredictionsNext, AdaptiveTradingGraph.ExtractFromFinalState, AdaptiveTradingGraph.ReportPredictionRead, AdaptiveTradingGraph.ExtractReport and AdaptiveTradingGraph.AdaptiveGraphEnhancer.EnhanceFinalState: read each report with the corrected `ReportSignal` of the third finding. A strong-sell report such as "definitely sell" therefore records -0.9, where the code as written records -0.6 (`ReportSignalAsWritten`).
- StateRecognizer.Recognizer.AnalyzeMarket, StateRecognizer.Recognizer.ClassifyAndCache, StateRecognizer.Recognizer.AnalyzeEntry and StateRecognizer.Recognizer.BatchAnalyze: compose the corrected `TechnicalData` of the fifth finding. As written, every call with enough data ends in the error result of `TechnicalDataAsWritten`, so no analysis is ever compiled or cached.
- TrendDetector.DetectTrend, VolatilityAnalyzer.AnalyzeVolatility, MarketClassifier.Classifier.ClassifyMarketState and StateRecognizer.Recognizer.AnalyzeMarket: the error text of a caught exception keeps its class as a "Kind: " prefix and does not name the operand types, where Python's `str(e)` gives the bare message with the types. Only the Alpha Vantage calendar strips the prefix (`ExceptionText`).
- AlphaVantageCommon.MakeApiRequest (and its specification AlphaVantageCommon.Request): the text of an HTTP error is "HTTPError: " and the status. The library's own wording (status, reason and URL) is not modelled.
- AlphaVantageEconomic.SortedDates: the comparison error for dates of mixed kinds is one fixed text. Python names the two types, in an order that depends on its sort. Dates equal as numbers (1, 1.0, True) are separate groups in `AlphaVantageEconomic.AddEvent`, where a Python dict merges them under the first key.
- AlphaVantageCommon.DateError: gives the messages of Python up to 3.12 ("day is out of range for month"). Later versions word the day error differently.
- NewsAnalyst.ItemOf: a title that is a dictionary gives Python's "unhashable type: 'slice'" of versions before 3.12. Later versions raise a KeyError instead.
- MockBacktest.Pairing, MockBacktest.PairRows and MockBacktest.AnalyzeTrades: require every close to be positive. The source divides by the entry close and does not check it. Its only caller builds the closes with `exp`, so they are always positive.
- BacktestCli.RunBacktest: a zero entry price gives an error result. numpy would divide by zero and carry `inf` or `nan` through the curve.

## Findings

| source | as written | input that shows it | evidently intended | confidence | as-written member | corrected member |
|---|---|---|---|---|---|---|
| tradingagents/adaptive_system/__init__.py:75-80 | `adjust_weight(agent_name, current_error, layer, market_volatility)` fills the `current_error` parameter of `layer_manager.py:119-123` with the layer name, so `current_error <= 0` compares a string with an int and raises TypeError after the prediction and the actual are recorded | any registered agent, e.g. `update_with_result("Technical Analyst", 0.01)` | the error and the layer passed in their own slots, and the layer-adjusted weight stored | not executed | AdaptivePackage.AdaptiveSystem.UpdateWithResultAsWritten | AdaptivePackage.AdaptiveSystem.UpdateWithResult |
| tradingagents/adaptive_system/optimization.py:122-140 | `grid_search` returns `convergence_iteration`, which is assigned only inside the nested function, so the return raises NameError | any parameter grid | the best parameters, their score and the history of evaluated combinations | not executed | Optimization.GridSearchAsWritten | Optimization.GridSearch |
| adaptive_trading_graph.py:207-220 | the "sell" group is tried before the "strong sell" group, and every strong-sell phrase contains "sell", so -0.9 is never returned | "definitely sell" reads -0.6 | strong-sell phrases read -0.9 | not executed | AdaptiveTradingGraph.DefinitelySellExample | AdaptiveTradingGraph.StrongSellReading |
| tradingagents/adaptive_system/state_aware_coordinator.py:152 | `_generate_summary` calls `np.mean` but numpy is never imported, so NameError is raised | any non-empty weights, e.g. `{"a": 1.0}` | the top agent and the mean weight | not executed | StateAwareCoordinator.SummaryAsWrittenRaises | StateAwareCoordinator.GenerateSummary |
| tradingagents/market_analysis/state_recognizer.py:120-127 | `not indicator_results` on the DataFrame returned by `calculate_all_indicators` raises ValueError, since a DataFrame has no truth value | any price data | the indicator values read from the frame | not executed | StateRecognizer.AsWrittenNeverSucceeds | StateRecognizer.TechnicalData |
