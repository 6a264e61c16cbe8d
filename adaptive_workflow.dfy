// Model of cli/adaptive_workflow.py: AdaptiveBacktestWorkflow runs (or
// simulates) a backtest for each decision of the main CLI, stores a record of
// it in its data directory, and reads the directory back to analyse the
// symbol's recent performance and to give feedback. The data directory is a
// field holding the parsed record files in listing order; the clock, the file
// name stamp, the backtest engine and numpy's random draws are parameters.

module AdaptiveWorkflow {
  import opened Common
  import BacktestCli
  import CliAdaptiveSystem

  // ------------------------------------------------------------ records

  /**
   * The fields of one stored record that the analysis reads: the decision's
   * symbol, the record's timestamp (None when it does not parse; a missing
   * one reads as 2000-01-01) and the backtest's `pnl_percent` (0 when the
   * result has none).
   */
  datatype Record = Record(symbol: Option<string>, timestamp: Option<int>, pnl: real)

  /** `lookback_days=30`, in seconds. */
  const LookbackSeconds := 30 * 86400

  /** A file the analysis keeps: readable, of this symbol, and no older than the cutoff. */
  predicate Counted(f: Option<Record>, symbol: string, cutoff: int)
  {
    f.Some? && f.value.symbol == Some(symbol) && f.value.timestamp.Some? && f.value.timestamp.value >= cutoff
  }

  /** The records of the given files the analysis keeps, in listing order; None stands for a file that does not parse. */
  function Recent(files: seq<(string, Option<Record>)>, symbol: string, cutoff: int): (r: seq<Record>)
    decreases |files|
    ensures |r| <= |files|
  {
    if |files| == 0 then []
    else
      var n := |files| - 1;
      Recent(files[..n], symbol, cutoff) + (if Counted(files[n].1, symbol, cutoff) then [files[n].1.value] else [])
  }

  /** Every kept record comes from a file the filter accepts. */
  lemma {:induction false} RecentSound(files: seq<(string, Option<Record>)>, symbol: string, cutoff: int, k: nat)
    requires k < |Recent(files, symbol, cutoff)|
    decreases |files|
    ensures var x := Recent(files, symbol, cutoff)[k];
      x.symbol == Some(symbol) && x.timestamp.Some? && x.timestamp.value >= cutoff
      && exists i :: 0 <= i < |files| && files[i].1 == Some(x)
  {
    var n := |files| - 1;
    var prev := Recent(files[..n], symbol, cutoff);
    if k < |prev| {
      RecentSound(files[..n], symbol, cutoff, k);
      var i :| 0 <= i < n && files[..n][i].1 == Some(prev[k]);
      assert files[i] == files[..n][i];
    } else {
      assert files[n].1 == Some(Recent(files, symbol, cutoff)[k]);
    }
  }

  /** Every file the filter accepts is among the kept records. */
  lemma {:induction false} RecentComplete(files: seq<(string, Option<Record>)>, symbol: string, cutoff: int, i: nat)
    requires i < |files| && Counted(files[i].1, symbol, cutoff)
    decreases |files|
    ensures files[i].1.value in Recent(files, symbol, cutoff)
  {
    var n := |files| - 1;
    if i < n {
      assert files[..n][i] == files[i];
      RecentComplete(files[..n], symbol, cutoff, i);
    }
  }

  /** The `for file in self.data_dir.glob("*.json")` loop of `_analyze_performance`, with its `continue` on an unreadable file. */
  method CollectRecords(files: seq<(string, Option<Record>)>, symbol: string, cutoff: int) returns (records: seq<Record>)
    ensures records == Recent(files, symbol, cutoff)
  {
    records := [];
    var i := 0;
    while i < |files|
      invariant i <= |files| && records == Recent(files[..i], symbol, cutoff)
    {
      assert files[..i + 1][..i] == files[..i];
      var data := files[i].1;
      if data.Some? && data.value.symbol == Some(symbol) {
        if data.value.timestamp.Some? && data.value.timestamp.value >= cutoff {
          records := records + [data.value];
        }
      }
      i := i + 1;
    }
    WholePrefix(files);
  }

  // ------------------------------------------------------------ analysis

  function Pnls(rs: seq<Record>): (r: seq<real>)
    ensures |r| == |rs| && forall i :: 0 <= i < |rs| ==> r[i] == rs[i].pnl
  {
    seq(|rs|, i requires 0 <= i < |rs| => rs[i].pnl)
  }

  /**
   * `_detect_patterns`: with at least three records, a winning streak when
   * the last three all gained and a losing streak when they all lost.
   */
  function Patterns(rs: seq<Record>): seq<CliAdaptiveSystem.Pattern>
  {
    if |rs| < 3 then []
    else
      var last := Pnls(rs[|rs| - 3..]);
      if CliAdaptiveSystem.AllPositive(last) then [CliAdaptiveSystem.WinningStreak]
      else if CliAdaptiveSystem.AllNegative(last) then [CliAdaptiveSystem.LosingStreak]
      else []
  }

  /** Only the last three records matter. */
  lemma PatternsOfLastThree(rs: seq<Record>)
    ensures |rs| < 3 ==> Patterns(rs) == []
    ensures |rs| >= 3 ==> Patterns(rs) == Patterns(rs[|rs| - 3..])
  {
    if |rs| >= 3 {
      var tail := rs[|rs| - 3..];
      assert tail[|tail| - 3..] == tail;
    }
  }

  /**
   * A winning streak is exactly three gains in a row at the end, a losing
   * streak exactly three losses, and at most one of them is reported.
   */
  lemma PatternsMeaning(rs: seq<Record>)
    ensures CliAdaptiveSystem.WinningStreak in Patterns(rs) <==>
      |rs| >= 3 && forall i :: |rs| - 3 <= i < |rs| ==> rs[i].pnl > 0.0
    ensures CliAdaptiveSystem.LosingStreak in Patterns(rs) <==>
      |rs| >= 3 && forall i :: |rs| - 3 <= i < |rs| ==> rs[i].pnl < 0.0
    ensures |Patterns(rs)| <= 1
  {
    if |rs| >= 3 {
      var k := |rs| - 3;
      var last := Pnls(rs[k..]);
      assert last == [rs[k].pnl, rs[k + 1].pnl, rs[k + 2].pnl];
      assert CliAdaptiveSystem.AllPositive(last) <==> rs[k].pnl > 0.0 && rs[k + 1].pnl > 0.0 && rs[k + 2].pnl > 0.0;
      assert CliAdaptiveSystem.AllNegative(last) <==> rs[k].pnl < 0.0 && rs[k + 1].pnl < 0.0 && rs[k + 2].pnl < 0.0;
    }
  }

  datatype Recommendation = Recommendation(priority: string, action: string, reason: string)

  const ReducePosition := Recommendation("high", "降低仓位", "平均收益为负")
  const RefineSignals := Recommendation("high", "优化信号", "胜率较低")

  /** `_generate_recommendations` on the rounded average and win rate the analysis reports. */
  function Recommendations(avgPnl: real, winRate: real): seq<Recommendation>
  {
    (if avgPnl < 0.0 then [ReducePosition] else []) + (if winRate < 40.0 then [RefineSignals] else [])
  }

  /**
   * The analysis dict: too few records (with their number), or the statistics.
   * The standard deviation is carried as the variance it is the square root of.
   */
  datatype Analysis =
    | Insufficient(count: nat, message: string)
    | Analyzed(total: nat, avgPnl: real, varPnl: real, winRate: real, best: real, worst: real,
               patterns: seq<CliAdaptiveSystem.Pattern>, recommendations: seq<Recommendation>)

  /** The analysis of the kept records: the mean, win rate and extremes rounded as the source rounds them. */
  function Analyze(rs: seq<Record>): (a: Analysis)
    ensures a.Insufficient? <==> |rs| < 3
    ensures a.Insufficient? ==> a.count == |rs|
    ensures a.Analyzed? ==> a.total == |rs| && a.patterns == Patterns(rs)
  {
    if |rs| < 3 then Insufficient(|rs|, "只有 " + NatToString(|rs|) + " 条记录，需要更多数据")
    else
      var pnls := Pnls(rs);
      var avg := Round(Mean(pnls), 2);
      var winRate := Round(BacktestCli.ShareAbove(pnls, 0.0), 1);
      Analyzed(|rs|, avg, Variance(pnls), winRate, Round(SeqMax(pnls), 2), Round(SeqMin(pnls), 2),
               Patterns(rs), Recommendations(avg, winRate))
  }

  /**
   * With three records or more: the win rate is a percentage, the worst trade
   * is at most the average, which is at most the best one, and the best and
   * worst trades are (rounded) pnls of kept records.
   */
  lemma AnalysisBounds(rs: seq<Record>)
    requires |rs| >= 3
    ensures var a := Analyze(rs);
      a.Analyzed? && 0.0 <= a.winRate <= 100.0 && a.worst <= a.avgPnl <= a.best
      && (exists i :: 0 <= i < |rs| && a.best == Round(rs[i].pnl, 2))
      && (exists i :: 0 <= i < |rs| && a.worst == Round(rs[i].pnl, 2))
  {
    var pnls := Pnls(rs);
    var share := BacktestCli.ShareAbove(pnls, 0.0);
    RoundMonotone(0.0, share, 1);
    RoundMonotone(share, 100.0, 1);
    RoundWhole(0, 1);
    RoundWhole(100, 1);
    MeanBounds(pnls, SeqMin(pnls), SeqMax(pnls));
    RoundMonotone(SeqMin(pnls), Mean(pnls), 2);
    RoundMonotone(Mean(pnls), SeqMax(pnls), 2);
  }

  /**
   * Both recommendations are of high priority. Reducing the position is
   * recommended exactly when the reported average is negative, which needs
   * a losing mean; refining the signals exactly when the reported win rate
   * is below 40.
   */
  lemma RecommendationsMeaning(rs: seq<Record>)
    requires |rs| >= 3
    ensures var a := Analyze(rs);
      a.Analyzed?
      && (ReducePosition in a.recommendations <==> a.avgPnl < 0.0)
      && (RefineSignals in a.recommendations <==> a.winRate < 40.0)
      && (ReducePosition in a.recommendations ==> Mean(Pnls(rs)) < 0.0)
      && forall r :: r in a.recommendations ==> r.priority == "high"
  {
    var m := Mean(Pnls(rs));
    if m >= 0.0 {
      RoundNonNegative(m, 2);
    }
  }

  // ------------------------------------------------------------ backtest

  /** numpy's draws for one simulation (the seed's hash and the generator are not modelled). */
  datatype Draws = Draws(normal: real, sharpe: real, drawdown: real, holdDays: int)

  /** The dict `_simulate_backtest` returns. */
  datatype Simulation = Simulation(symbol: string, decisionDate: string, action: string, pnlPercent: real,
                                   sharpe: real, maxDrawdown: real, holdDays: int, entryPrice: real, exitPrice: real)

  /** The simulated pnl before rounding: the normal draw shifted by 3 per unit of confidence above 0.5, clipped to ±20. */
  function SimulatedPnl(normal: real, confidence: real): real
  {
    Clamp(normal + (confidence - 0.5) * 3.0, -20.0, 20.0)
  }

  function Simulate(symbol: string, date: string, action: string, confidence: real, draws: Draws): (s: Simulation)
    ensures s.symbol == symbol && s.decisionDate == date && s.action == action && s.entryPrice == 1.1
  {
    var pnl := SimulatedPnl(draws.normal, confidence);
    Simulation(symbol, date, action, Round(pnl, 2), Round(draws.sharpe, 3), Round(draws.drawdown, 2),
               draws.holdDays, 1.1, Round(1.1 * (1.0 + pnl / 100.0), 5))
  }

  /**
   * The simulated pnl lies in [-20, 20] whatever the draw and the confidence,
   * and within the clip it is the draw plus the confidence effect, rounded.
   */
  lemma SimulatedPnlBounds(symbol: string, date: string, action: string, confidence: real, draws: Draws)
    ensures var s := Simulate(symbol, date, action, confidence, draws);
      -20.0 <= s.pnlPercent <= 20.0
      && (-20.0 <= draws.normal + (confidence - 0.5) * 3.0 <= 20.0 ==>
            s.pnlPercent == Round(draws.normal + (confidence - 0.5) * 3.0, 2))
  {
    var pnl := SimulatedPnl(draws.normal, confidence);
    RoundMonotone(-20.0, pnl, 2);
    RoundMonotone(pnl, 20.0, 2);
    RoundWhole(-20, 2);
    RoundWhole(20, 2);
  }

  /**
   * What the backtest engine did: it failed to import, it raised, or it
   * returned a result dict (an error dict being `Err`).
   */
  datatype EngineRun = NoEngine | Raised | Returned(result: Result<BacktestCli.Backtest>)

  /** The backtest result the workflow goes on with. */
  datatype Outcome = Real(backtest: BacktestCli.Backtest) | EngineError(error: string) | Simulated(sim: Simulation)

  /** `_run_backtest`: the engine's own result when it returned one, the simulation otherwise. */
  function RunBacktest(symbol: string, date: string, action: string, confidence: real,
                       engine: EngineRun, draws: Draws): (o: Outcome)
    ensures o.Simulated? <==> engine.NoEngine? || engine.Raised?
    ensures o.Simulated? ==> o.sim == Simulate(symbol, date, action, confidence, draws)
    ensures engine.Returned? ==> o == (if engine.result.Ok? then Real(engine.result.value) else EngineError(engine.result.msg))
  {
    match engine
    case Returned(Ok(b)) => Real(b)
    case Returned(Err(m)) => EngineError(m)
    case _ => Simulated(Simulate(symbol, date, action, confidence, draws))
  }

  /** `result.get('pnl_percent', 0)`: an error dict has no pnl. */
  function OutcomePnl(o: Outcome): real
  {
    match o
    case Real(b) => b.pnlPercent
    case EngineError(_) => 0.0
    case Simulated(s) => s.pnlPercent
  }

  // ------------------------------------------------------------ feedback

  const KeepLogic := "当前决策逻辑与回测表现一致，建议维持。"
  const RecheckEntry := "回测显示潜在亏损，建议重新检查入场因子。"

  /** The feedback dict; the summary text embeds `pnl`. */
  datatype Feedback = Feedback(pnl: real, suggestions: seq<string>)

  /** `_generate_feedback`. */
  function FeedbackOf(pnl: real): Feedback
  {
    Feedback(pnl, [if pnl > 0.0 then KeepLogic else RecheckEntry])
  }

  /**
   * The feedback holds exactly one suggestion: keep the logic exactly when
   * the backtest gained, re-check the entry otherwise.
   */
  lemma FeedbackMeaning(pnl: real)
    ensures |FeedbackOf(pnl).suggestions| == 1 && FeedbackOf(pnl).pnl == pnl
    ensures FeedbackOf(pnl).suggestions[0] == KeepLogic <==> pnl > 0.0
    ensures FeedbackOf(pnl).suggestions[0] == RecheckEntry <==> pnl <= 0.0
  {
  }

  /** `_optimize_parameters`: fixed values, whatever the symbol. */
  const OptimizedParameters: seq<(string, real)> :=
    [("position_size", 0.01), ("stop_loss_pct", 2.0), ("take_profit_pct", 4.0), ("min_confidence", 0.6)]

  // ------------------------------------------------------------ the workflow

  /** The decision data of the main CLI; a missing field is None. */
  datatype Decision = Decision(symbol: Option<string>, action: Option<string>, date: Option<string>, confidence: Option<real>)

  /** The dict `process_main_cli_decision` returns (its ISO timestamp aside). */
  datatype Processed = Processed(recordId: string, decision: Decision, backtest: Outcome, analysis: Analysis,
                                 feedback: Feedback, parameters: seq<(string, real)>)

  /** The record saved for a decision at time `now`. */
  function RecordOf(symbol: string, now: int, o: Outcome): Record
  {
    Record(Some(symbol), Some(now), OutcomePnl(o))
  }

  /**
   * The record just saved is always part of the analysis that follows it,
   * whatever the directory held before: it is of the decision's symbol and
   * not older than the cutoff.
   */
  lemma SavedRecordCounted(files: seq<(string, Option<Record>)>, name: string, symbol: string, now: int, o: Outcome)
    ensures var after := Put(files, name, Some(RecordOf(symbol, now, o)));
      RecordOf(symbol, now, o) in Recent(after, symbol, now - LookbackSeconds)
  {
    var rec := RecordOf(symbol, now, o);
    var after := Put(files, name, Some(rec));
    assert (name, Some(rec)) in after;
    var i :| 0 <= i < |after| && after[i] == (name, Some(rec));
    RecentComplete(after, symbol, now - LookbackSeconds, i);
  }

  class Workflow {
    /** The data directory: file name and parsed content (None for a file that does not parse), in listing order. */
    var files: seq<(string, Option<Record>)>

    constructor (existing: seq<(string, Option<Record>)>)
      ensures files == existing
    {
      files := existing;
    }

    /**
     * `process_main_cli_decision` at time `now`, with `stamp` the
     * `%Y%m%d_%H%M%S` rendering of it. A decision without symbol, date or
     * action raises KeyError before anything is saved. Otherwise the
     * record is saved under `<symbol>_<stamp>.json` (replacing a file of
     * that name), and the analysis reads the directory with it.
     */
    method ProcessDecision(d: Decision, engine: EngineRun, draws: Draws, now: int, stamp: string)
      returns (r: Result<Processed>)
      modifies this
      ensures d.symbol.None? ==> r == Err("KeyError: 'symbol'")
      ensures d.symbol.Some? && d.date.None? ==> r == Err("KeyError: 'date'")
      ensures d.symbol.Some? && d.date.Some? && d.action.None? ==> r == Err("KeyError: 'action'")
      ensures r.Err? ==> files == old(files)
      ensures r.Ok? <==> d.symbol.Some? && d.date.Some? && d.action.Some?
      ensures r.Ok? ==>
        var symbol := d.symbol.value;
        var confidence := if d.confidence.Some? then d.confidence.value else 0.5;
        var o := RunBacktest(symbol, d.date.value, d.action.value, confidence, engine, draws);
        var id := symbol + "_" + stamp;
        files == Put(old(files), id + ".json", Some(RecordOf(symbol, now, o)))
        && r.value == Processed(id, d, o, Analyze(Recent(files, symbol, now - LookbackSeconds)),
                                FeedbackOf(OutcomePnl(o)), OptimizedParameters)
    {
      if d.symbol.None? {
        return Err("KeyError: 'symbol'");
      }
      if d.date.None? {
        return Err("KeyError: 'date'");
      }
      if d.action.None? {
        return Err("KeyError: 'action'");
      }
      var symbol := d.symbol.value;
      var confidence := if d.confidence.Some? then d.confidence.value else 0.5;
      var outcome := RunBacktest(symbol, d.date.value, d.action.value, confidence, engine, draws);
      var id := symbol + "_" + stamp;
      files := Put(files, id + ".json", Some(RecordOf(symbol, now, outcome)));
      var records := CollectRecords(files, symbol, now - LookbackSeconds);
      var analysis := Analyze(records);
      var feedback := FeedbackOf(OutcomePnl(outcome));
      r := Ok(Processed(id, d, outcome, analysis, feedback, OptimizedParameters));
    }
  }
}
