// Model of cli/adaptive_system.py: the statistics of PerformanceDatabase over
// the stored metrics, the analysis, pattern detection, recommendations and
// parameter optimisation of AdaptiveSystem, and the guard and feedback of
// MainCLIBridge. The metric files, the clock and the backtest engine are
// parameters.

module CliAdaptiveSystem {
  import opened Common
  import BacktestCli

  // ------------------------------------------------------------ statistics

  /** The fields of one metrics file that the statistics read; the timestamp is a number on the clock's scale. */
  datatype Metric = Metric(symbol: Option<string>, action: Option<string>, pnl: real, sharpe: real, timestamp: int)

  /** The filters of `get_performance_stats`: an empty symbol or action filters nothing; older metrics are skipped. */
  predicate Selected(m: Metric, symbol: string, action: string, cutoff: int)
  {
    (symbol == "" || m.symbol == Some(symbol))
    && (action == "" || m.action == Some(action))
    && m.timestamp >= cutoff
  }

  /** The metrics the filters keep, in file order. */
  function Matching(files: seq<Metric>, symbol: string, action: string, cutoff: int): (r: seq<Metric>)
    decreases |files|
    ensures |r| <= |files|
  {
    if |files| == 0 then []
    else
      var n := |files| - 1;
      Matching(files[..n], symbol, action, cutoff) + (if Selected(files[n], symbol, action, cutoff) then [files[n]] else [])
  }

  /** Every kept metric passes the filters. */
  lemma {:induction false} MatchingSelected(files: seq<Metric>, symbol: string, action: string, cutoff: int, k: nat)
    requires k < |Matching(files, symbol, action, cutoff)|
    decreases |files|
    ensures Selected(Matching(files, symbol, action, cutoff)[k], symbol, action, cutoff)
    ensures Matching(files, symbol, action, cutoff)[k] in files
  {
    var n := |files| - 1;
    if k < |Matching(files[..n], symbol, action, cutoff)| {
      MatchingSelected(files[..n], symbol, action, cutoff, k);
    }
  }

  /** Every metric passing the filters is kept. */
  lemma {:induction false} MatchingComplete(files: seq<Metric>, symbol: string, action: string, cutoff: int, i: nat)
    requires i < |files| && Selected(files[i], symbol, action, cutoff)
    decreases |files|
    ensures files[i] in Matching(files, symbol, action, cutoff)
  {
    var n := |files| - 1;
    if i < n {
      assert files[..n][i] == files[i];
      MatchingComplete(files[..n], symbol, action, cutoff, i);
    }
  }

  /** The `for file in metrics_files` loop with its `continue`s. */
  method FilterMetrics(files: seq<Metric>, symbol: string, action: string, cutoff: int) returns (kept: seq<Metric>)
    ensures kept == Matching(files, symbol, action, cutoff)
  {
    kept := [];
    var i := 0;
    while i < |files|
      invariant i <= |files| && kept == Matching(files[..i], symbol, action, cutoff)
    {
      assert files[..i + 1][..i] == files[..i];
      var m := files[i];
      if (symbol == "" || m.symbol == Some(symbol)) && (action == "" || m.action == Some(action)) && m.timestamp >= cutoff {
        kept := kept + [m];
      }
      i := i + 1;
    }
    WholePrefix(files);
  }

  /**
   * The statistics dict. The standard deviation is carried as its square,
   * the variance, since the source only compares it.
   */
  datatype Stats = Stats(total: nat, avgPnl: real, varPnl: real, avgSharpe: real, winRate: real,
                         best: real, worst: real, recent: seq<Metric>)

  function Pnls(ms: seq<Metric>): (r: seq<real>)
    ensures |r| == |ms| && forall i :: 0 <= i < |ms| ==> r[i] == ms[i].pnl
  {
    seq(|ms|, i requires 0 <= i < |ms| => ms[i].pnl)
  }

  function Sharpes(ms: seq<Metric>): (r: seq<real>)
    ensures |r| == |ms| && forall i :: 0 <= i < |ms| ==> r[i] == ms[i].sharpe
  {
    seq(|ms|, i requires 0 <= i < |ms| => ms[i].sharpe)
  }

  /** The statistics of a non-empty list of metrics: counts, means, win rate, extremes and the last ten. */
  function StatsOf(ms: seq<Metric>): (s: Stats)
    requires |ms| > 0
    ensures s.total == |ms| && 0.0 <= s.winRate <= 100.0
    ensures s.recent == TakeLast(ms, 10) && |s.recent| == (if |ms| < 10 then |ms| else 10)
  {
    var pnls := Pnls(ms);
    Stats(|ms|, Mean(pnls), Variance(pnls), Mean(Sharpes(ms)), BacktestCli.ShareAbove(pnls, 0.0),
          SeqMax(pnls), SeqMin(pnls), TakeLast(ms, 10))
  }

  /** The worst trade is at most the average, which is at most the best one. */
  lemma StatsOrdered(ms: seq<Metric>)
    requires |ms| > 0
    ensures StatsOf(ms).worst <= StatsOf(ms).avgPnl <= StatsOf(ms).best
  {
    var pnls := Pnls(ms);
    MeanBounds(pnls, SeqMin(pnls), SeqMax(pnls));
  }

  /** `get_performance_stats`: no statistics (the empty dict) exactly when no metric passes the filters. */
  method PerformanceStats(files: seq<Metric>, symbol: string, action: string, cutoff: int) returns (r: Option<Stats>)
    ensures r.None? <==> forall i :: 0 <= i < |files| ==> !Selected(files[i], symbol, action, cutoff)
    ensures r.Some? ==> |Matching(files, symbol, action, cutoff)| > 0 && r == Some(StatsOf(Matching(files, symbol, action, cutoff)))
  {
    var kept := FilterMetrics(files, symbol, action, cutoff);
    if |kept| == 0 {
      forall i | 0 <= i < |files| ensures !Selected(files[i], symbol, action, cutoff) {
        if Selected(files[i], symbol, action, cutoff) {
          MatchingComplete(files, symbol, action, cutoff, i);
        }
      }
      r := None;
    } else {
      MatchingSelected(files, symbol, action, cutoff, 0);
      r := Some(StatsOf(kept));
    }
  }

  // ------------------------------------------------------------ analysis

  datatype Pattern = WinningStreak | LosingStreak | IncreasingVolatility

  predicate AllPositive(s: seq<real>) { forall i :: 0 <= i < |s| ==> s[i] > 0.0 }

  predicate AllNegative(s: seq<real>) { forall i :: 0 <= i < |s| ==> s[i] < 0.0 }

  /**
   * `_detect_patterns`: with at least three recent trades, a streak when all
   * of them won or all lost, and rising volatility when their standard
   * deviation exceeds 1.5 times the overall one (compared as variances,
   * 1.5 squared being 2.25).
   */
  function Patterns(s: Stats): seq<Pattern>
  {
    if |s.recent| < 3 then []
    else
      var p := Pnls(s.recent);
      (if AllPositive(p) then [WinningStreak] else if AllNegative(p) then [LosingStreak] else [])
      + (if Variance(p) > 2.25 * s.varPnl then [IncreasingVolatility] else [])
  }

  /**
   * Fewer than three recent trades show no pattern. A winning streak is
   * exactly an all-positive run of recent trades and a losing streak an
   * all-negative one, so the two never occur together.
   */
  lemma PatternsMeaning(s: Stats)
    ensures |s.recent| < 3 ==> Patterns(s) == []
    ensures WinningStreak in Patterns(s) <==> |s.recent| >= 3 && AllPositive(Pnls(s.recent))
    ensures LosingStreak in Patterns(s) <==> |s.recent| >= 3 && AllNegative(Pnls(s.recent))
    ensures !(WinningStreak in Patterns(s) && LosingStreak in Patterns(s))
  {
    if |s.recent| >= 3 {
      var p := Pnls(s.recent);
      assert AllPositive(p) ==> !AllNegative(p) by {
        assert p[0] > 0.0 ==> !(p[0] < 0.0);
      }
    }
  }

  datatype Priority = High | Medium

  datatype Recommendation = Recommendation(kind: string, priority: Priority, action: string, reason: string)

  const RiskItem := Recommendation("risk_management", High, "减少仓位规模或增加止损", "平均收益为负")
  const StrategyItem := Recommendation("strategy", High, "重新评估入场信号", "胜率偏低")
  const RiskAdjustItem := Recommendation("risk_adjustment", Medium, "优化止盈止损比例", "风险调整后收益低")
  const PsychologyItem := Recommendation("psychology", High, "暂停交易，重新评估策略", "连续亏损可能表示市场条件变化")

  /** `_generate_recommendations`, in the source's order. */
  function Recommendations(s: Stats): seq<Recommendation>
  {
    (if s.avgPnl < 0.0 then [RiskItem] else [])
    + (if s.winRate < 40.0 then [StrategyItem] else [])
    + (if s.avgSharpe < 0.5 then [RiskAdjustItem] else [])
    + (if LosingStreak in Patterns(s) then [PsychologyItem] else [])
  }

  /**
   * Each item appears exactly under its condition: a negative average, a win
   * rate under 40, a Sharpe ratio under 0.5, a losing streak.
   */
  lemma RecommendationsMeaning(s: Stats)
    ensures RiskItem in Recommendations(s) <==> s.avgPnl < 0.0
    ensures StrategyItem in Recommendations(s) <==> s.winRate < 40.0
    ensures RiskAdjustItem in Recommendations(s) <==> s.avgSharpe < 0.5
    ensures PsychologyItem in Recommendations(s) <==> |s.recent| >= 3 && AllNegative(Pnls(s.recent))
  {
    PatternsMeaning(s);
    assert RiskItem.kind != StrategyItem.kind && RiskItem.kind != RiskAdjustItem.kind && RiskItem.kind != PsychologyItem.kind;
    assert StrategyItem.kind != RiskAdjustItem.kind && StrategyItem.kind != PsychologyItem.kind;
    assert RiskAdjustItem.kind != PsychologyItem.kind;
  }

  /** Nothing else is recommended, and only the Sharpe item is of medium priority. */
  lemma RecommendationsPriorities(s: Stats)
    ensures forall r :: r in Recommendations(s) ==> r in {RiskItem, StrategyItem, RiskAdjustItem, PsychologyItem}
    ensures forall r :: r in Recommendations(s) ==> (r.priority == Medium <==> r == RiskAdjustItem)
  {
  }

  datatype Summary = Summary(profitable: bool, consistent: bool, riskAdjustedGood: bool)

  /** The result of `analyze_performance`: too few trades, or the full analysis. */
  datatype Analysis =
    | Insufficient
    | Analyzed(total: nat, summary: Summary, patterns: seq<Pattern>, recommendations: seq<Recommendation>)

  /** `analyze_performance` on the statistics the database returned (None for the empty dict). */
  function AnalyzePerformance(stats: Option<Stats>): (a: Analysis)
    ensures a.Insufficient? <==> stats.None? || stats.value.total < 5
  {
    match stats
    case None => Insufficient
    case Some(s) =>
      if s.total < 5 then Insufficient
      else Analyzed(s.total, Summary(s.avgPnl > 0.0, s.varPnl < 25.0, s.avgSharpe > 1.0), Patterns(s), Recommendations(s))
  }

  /**
   * With at least five trades: profitable exactly when the average is
   * positive, consistent exactly when the standard deviation is below 5 (for
   * a standard deviation sd with sd * sd the variance), good exactly when the
   * Sharpe ratio exceeds 1.0.
   */
  lemma SummaryMeaning(s: Stats, sd: real)
    requires s.total >= 5 && sd >= 0.0 && sd * sd == s.varPnl
    ensures var a := AnalyzePerformance(Some(s));
      a.Analyzed? && a.total == s.total
      && (a.summary.profitable <==> s.avgPnl > 0.0)
      && (a.summary.consistent <==> sd < 5.0)
      && (a.summary.riskAdjustedGood <==> s.avgSharpe > 1.0)
  {
    SquareBelow(sd, 5.0);
  }

  /**
   * Rising volatility compares the deviations themselves: for the standard
   * deviations of the recent and of all trades, it is reported exactly when
   * the recent one exceeds 1.5 times the overall one.
   */
  lemma VolatilityPatternMeaning(s: Stats, sdRecent: real, sdAll: real)
    requires |s.recent| >= 3
    requires sdRecent >= 0.0 && sdRecent * sdRecent == Variance(Pnls(s.recent))
    requires sdAll >= 0.0 && sdAll * sdAll == s.varPnl
    ensures IncreasingVolatility in Patterns(s) <==> sdRecent > sdAll * 1.5
  {
    SquareBelow(sdAll * 1.5, sdRecent);
    assert (sdAll * 1.5) * (sdAll * 1.5) == 2.25 * s.varPnl;
    var p := Pnls(s.recent);
    var streaks := if AllPositive(p) then [WinningStreak] else if AllNegative(p) then [LosingStreak] else [];
    assert IncreasingVolatility !in streaks;
  }

  /** The holding period is shortened exactly when the standard deviation of the returns exceeds 8. */
  lemma HoldShortenedMeaning(s: Stats, sd: real)
    requires sd >= 0.0 && sd * sd == s.varPnl
    ensures s.varPnl > 64.0 <==> sd > 8.0
  {
    SquareBelow(8.0, sd);
  }

  /** For non-negative x and b: x < b exactly when x * x < b * b. */
  lemma SquareBelow(x: real, b: real)
    requires x >= 0.0 && b >= 0.0
    ensures x < b <==> x * x < b * b
  {
    assert b * b - x * x == (b - x) * (b + x);
    if x < b {
      MulPositive(b - x, b + x);
    } else {
      MulNonNegative(x - b, x + b);
    }
  }

  lemma MulPositive(a: real, b: real)
    requires a > 0.0 && b > 0.0
    ensures a * b > 0.0
  {
  }

  lemma MulNonNegative(a: real, b: real)
    requires a >= 0.0 && b >= 0.0
    ensures a * b >= 0.0
  {
  }

  // ------------------------------------------------------------ parameters

  /** A parameter value times a factor, as one term the proofs below can rewrite with. */
  function Product(x: real, f: real): real
  {
    x * f
  }

  /** `if k in optimized: optimized[k] *= f`. */
  function Scale(d: seq<(string, real)>, k: string, f: real): seq<(string, real)>
  {
    if Get(d, k).Some? then Put(d, k, Product(Get(d, k).value, f)) else d
  }

  /** `optimized["hold_days"] = max(3, optimized["hold_days"] - 2)` when the key is present. */
  function ShortenHold(d: seq<(string, real)>): seq<(string, real)>
  {
    match Get(d, "hold_days")
    case None => d
    case Some(x) => Put(d, "hold_days", Max(3.0, x - 2.0))
  }

  /** `optimize_parameters` on the 90-day statistics (None for the empty dict); the standard deviation test is on the variance. */
  function OptimizeParameters(stats: Option<Stats>, params: seq<(string, real)>): (r: seq<(string, real)>)
    ensures stats.None? || stats.value.total < 10 ==> r == params
  {
    match stats
    case None => params
    case Some(s) =>
      if s.total < 10 then params
      else
        var p2 := StrengthAdjusted(s, params);
        if s.varPnl > 64.0 then ShortenHold(p2) else p2
  }

  /** A looked-up value times f; an absent value stays absent. */
  function Times(v: Option<real>, f: real): Option<real>
  {
    if v.Some? then Some(Product(v.value, f)) else None
  }

  /** A looked-up holding period shortened by 2, to no less than 3; an absent value stays absent. */
  function Shortened(v: Option<real>): Option<real>
  {
    if v.Some? then Some(Max(3.0, v.value - 2.0)) else None
  }

  lemma ScaleGet(d: seq<(string, real)>, k: string, f: real, n: string)
    ensures Get(Scale(d, k, f), n) == if n == k then Times(Get(d, n), f) else Get(d, n)
  {
    if Get(d, k).Some? {
      PutGet(d, k, Product(Get(d, k).value, f), n);
    }
  }

  lemma ShortenHoldGet(d: seq<(string, real)>, n: string)
    ensures Get(ShortenHold(d), n) == if n == "hold_days" then Shortened(Get(d, n)) else Get(d, n)
  {
    if Get(d, "hold_days").Some? {
      PutGet(d, "hold_days", Max(3.0, Get(d, "hold_days").value - 2.0), n);
    }
  }

  /** The factor the position size gets: 0.8 on a losing average, 1.2 on a strong record, otherwise 1. */
  function PositionFactor(s: Stats): real
  {
    if s.avgPnl < 0.0 then 0.8 else if s.winRate > 60.0 && s.avgPnl > 2.0 then 1.2 else 1.0
  }

  /** The adjustments for a losing average, then for a strong record, as `optimize_parameters` applies them. */
  function LossAdjusted(s: Stats, params: seq<(string, real)>): seq<(string, real)>
  {
    if s.avgPnl < 0.0 then Scale(Scale(params, "position_size", 0.8), "stop_loss_pct", 0.9) else params
  }

  function StrengthAdjusted(s: Stats, params: seq<(string, real)>): seq<(string, real)>
  {
    var p1 := LossAdjusted(s, params);
    if s.winRate > 60.0 && s.avgPnl > 2.0 then Scale(p1, "position_size", 1.2) else p1
  }

  lemma LossAdjustedGet(s: Stats, params: seq<(string, real)>, n: string)
    ensures Get(LossAdjusted(s, params), n) ==
      if s.avgPnl < 0.0 && n == "position_size" then Times(Get(params, n), 0.8)
      else if s.avgPnl < 0.0 && n == "stop_loss_pct" then Times(Get(params, n), 0.9)
      else Get(params, n)
  {
    if s.avgPnl < 0.0 {
      assert "position_size" != "stop_loss_pct" by { assert "position_size"[0] != "stop_loss_pct"[0]; }
      var p0 := Scale(params, "position_size", 0.8);
      ScaleGet(params, "position_size", 0.8, n);
      ScaleGet(p0, "stop_loss_pct", 0.9, n);
    }
  }

  lemma StrengthAdjustedGet(s: Stats, params: seq<(string, real)>, n: string)
    ensures Get(StrengthAdjusted(s, params), n) ==
      if n == "position_size" then Times(Get(params, n), PositionFactor(s))
      else Get(LossAdjusted(s, params), n)
  {
    var p1 := LossAdjusted(s, params);
    LossAdjustedGet(s, params, n);
    if s.winRate > 60.0 && s.avgPnl > 2.0 {
      ScaleGet(p1, "position_size", 1.2, n);
    }
  }

  /** With ten trades or more `optimize_parameters` is the two adjustments followed by the holding-period rule. */
  lemma OptimizeSteps(s: Stats, params: seq<(string, real)>)
    requires s.total >= 10
    ensures OptimizeParameters(Some(s), params) ==
      if s.varPnl > 64.0 then ShortenHold(StrengthAdjusted(s, params)) else StrengthAdjusted(s, params)
  {
  }

  /**
   * With ten trades or more, the optimised parameters read: the position size
   * scaled by its factor, the stop loss tightened by 0.9 on a losing average,
   * the holding period shortened by 2 (to no less than 3) when the standard
   * deviation exceeds 8, and every other parameter as before; an absent
   * parameter stays absent.
   */
  lemma OptimizedValues(s: Stats, params: seq<(string, real)>, n: string)
    requires s.total >= 10
    ensures var r := OptimizeParameters(Some(s), params);
      Get(r, n) == if n == "position_size" then Times(Get(params, n), PositionFactor(s))
                   else if n == "stop_loss_pct" && s.avgPnl < 0.0 then Times(Get(params, n), 0.9)
                   else if n == "hold_days" && s.varPnl > 64.0 then Shortened(Get(params, n))
                   else Get(params, n)
  {
    OptimizeSteps(s, params);
    var p2 := StrengthAdjusted(s, params);
    StrengthAdjustedGet(s, params, n);
    LossAdjustedGet(s, params, n);
    if s.varPnl > 64.0 {
      ShortenHoldGet(p2, n);
    }
  }

  /** Optimising keeps the parameter names in their order. */
  lemma OptimizedKeys(stats: Option<Stats>, params: seq<(string, real)>)
    ensures Keys(OptimizeParameters(stats, params)) == Keys(params)
  {
    forall d: seq<(string, real)>, k: string, f: real ensures Keys(Scale(d, k, f)) == Keys(d) {
      if Get(d, k).Some? {
        PutKeys(d, k, Product(Get(d, k).value, f));
      }
    }
    forall d: seq<(string, real)> ensures Keys(ShortenHold(d)) == Keys(d) {
      if Get(d, "hold_days").Some? {
        PutKeys(d, "hold_days", Max(3.0, Get(d, "hold_days").value - 2.0));
      }
    }
  }

  // ------------------------------------------------------------ the bridge

  /** The decision data the main CLI hands over; missing fields are `Null`. */
  datatype Decision = Decision(symbol: Value, action: Value, date: Value, confidence: Option<real>, agents: seq<string>)

  /** The starting parameters of `_optimize_for_next_decision`. */
  function NextParams(d: Decision): (r: seq<(string, real)>)
    ensures Keys(r) == ["position_size", "stop_loss_pct", "take_profit_pct", "hold_days", "confidence_threshold"]
  {
    [("position_size", 0.01), ("stop_loss_pct", 2.0), ("take_profit_pct", 4.0), ("hold_days", 10.0),
     ("confidence_threshold", match d.confidence case Some(c) => c case None => 0.7)]
  }

  /** The confidence threshold starts at the decision's confidence, or 0.7 without one. */
  lemma NextThreshold(d: Decision)
    ensures Get(NextParams(d), "confidence_threshold") == Some(match d.confidence case Some(c) => c case None => 0.7)
  {
    var r := NextParams(d);
    assert r[0].0 != r[4].0 && r[1].0 != r[4].0 && r[2].0 != r[4].0 && r[3].0 != r[4].0;
    GetAt(r, 4);
  }

  /** The actions of the high-priority recommendations, in order. */
  function HighActions(recs: seq<Recommendation>): (r: seq<string>)
    decreases |recs|
    ensures |r| <= |recs|
  {
    if |recs| == 0 then []
    else
      var n := |recs| - 1;
      HighActions(recs[..n]) + (if recs[n].priority == High then [recs[n].action] else [])
  }

  /** Every suggestion is the action of a high-priority recommendation, and every such action is suggested. */
  lemma {:induction false} HighActionsMeaning(recs: seq<Recommendation>, a: string)
    decreases |recs|
    ensures a in HighActions(recs) <==> exists i :: 0 <= i < |recs| && recs[i].priority == High && recs[i].action == a
  {
    if |recs| > 0 {
      var n := |recs| - 1;
      HighActionsMeaning(recs[..n], a);
      if exists i :: 0 <= i < |recs| && recs[i].priority == High && recs[i].action == a {
        var i :| 0 <= i < |recs| && recs[i].priority == High && recs[i].action == a;
        if i < n {
          assert recs[..n][i] == recs[i];
        }
      }
      if exists i :: 0 <= i < n && recs[..n][i].priority == High && recs[..n][i].action == a {
        var i :| 0 <= i < n && recs[..n][i].priority == High && recs[..n][i].action == a;
        assert recs[i] == recs[..n][i];
      }
    }
  }

  /** The `for rec in analysis["recommendations"]` loop of `_generate_feedback_report`. */
  method HighPrioritySuggestions(recs: seq<Recommendation>) returns (suggestions: seq<string>)
    ensures suggestions == HighActions(recs)
  {
    suggestions := [];
    var i := 0;
    while i < |recs|
      invariant i <= |recs| && suggestions == HighActions(recs[..i])
    {
      assert recs[..i + 1][..i] == recs[..i];
      if recs[i].priority == High {
        suggestions := suggestions + [recs[i].action];
      }
      i := i + 1;
    }
    WholePrefix(recs);
  }

  datatype Feedback = Feedback(symbol: Value, action: Value, confidence: real, agents: seq<string>,
                               pnl: real, success: bool, learningPoints: seq<string>, suggestions: seq<string>)

  const StrongGain := "决策产生了显著正收益"
  const StrongLoss := "决策产生了显著负收益，需要反思"

  /** `_generate_feedback_report` (its timestamp and the Sharpe ratio are not modelled). */
  function FeedbackReport(result: BacktestCli.Backtest, analysis: Analysis, d: Decision): (f: Feedback)
    ensures f.success <==> result.pnlPercent > 0.0
    ensures f.learningPoints == (if result.pnlPercent > 5.0 then [StrongGain]
                                 else if result.pnlPercent < -5.0 then [StrongLoss] else [])
    ensures analysis.Insufficient? ==> f.suggestions == []
  {
    var pnl := result.pnlPercent;
    Feedback(d.symbol, d.action, match d.confidence case Some(c) => c case None => 0.0, d.agents, pnl, pnl > 0.0,
             if pnl > 5.0 then [StrongGain] else if pnl < -5.0 then [StrongLoss] else [],
             if analysis.Analyzed? then HighActions(analysis.recommendations) else [])
  }

  /** What `on_main_cli_decision` returns apart from the stored result id. */
  datatype Bridged = Bridged(result: BacktestCli.Backtest, analysis: Analysis, feedback: Feedback,
                             optimized: seq<(string, real)>)

  /**
   * `MainCLIBridge.on_main_cli_decision`. `run` is the backtest engine at a
   * ten-day holding period; `stats30` and `stats90` are what the database
   * reports for the symbol over 30 and 90 days after the result is saved.
   */
  function OnMainCliDecision(d: Decision, run: (Value, Value, Value) -> Result<BacktestCli.Backtest>,
                             stats30: Option<Stats>, stats90: Option<Stats>): (r: Option<Bridged>)
    ensures r.Some? <==> Truthy(d.symbol) && Truthy(d.action) && Truthy(d.date) && run(d.symbol, d.date, d.action).Ok?
    ensures r.Some? ==>
      r.value.result == run(d.symbol, d.date, d.action).value
      && r.value.analysis == AnalyzePerformance(stats30)
      && r.value.feedback == FeedbackReport(r.value.result, r.value.analysis, d)
      && r.value.optimized == OptimizeParameters(stats90, NextParams(d))
  {
    if !(Truthy(d.symbol) && Truthy(d.action) && Truthy(d.date)) then None
    else
      match run(d.symbol, d.date, d.action)
      case Err(_) => None
      case Ok(result) =>
        var analysis := AnalyzePerformance(stats30);
        Some(Bridged(result, analysis, FeedbackReport(result, analysis, d), OptimizeParameters(stats90, NextParams(d))))
  }

  /** The feedback only ever suggests high-priority actions, and suggests all of them. */
  lemma FeedbackSuggestsHighOnly(result: BacktestCli.Backtest, s: Stats, d: Decision, a: string)
    requires s.total >= 5
    ensures var f := FeedbackReport(result, AnalyzePerformance(Some(s)), d);
      a in f.suggestions <==> exists r :: r in Recommendations(s) && r.priority == High && r.action == a
  {
    var recs := Recommendations(s);
    HighActionsMeaning(recs, a);
    if exists r :: r in recs && r.priority == High && r.action == a {
      var r :| r in recs && r.priority == High && r.action == a;
      var i :| 0 <= i < |recs| && recs[i] == r;
    }
  }
}
