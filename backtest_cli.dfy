// Model of cli/backtest_cli.py: the symbol map, the single-decision backtest
// of SimpleBacktestEngine over a given close series, batch decision dates and
// the evaluation tiers of the result displays.

module BacktestCli {
  import opened Common

  // ------------------------------------------------------------ symbols

  /** The symbol map of `_convert_symbol`. */
  const SymbolMap := [("EURUSD", "EURUSD=X"), ("GBPUSD", "GBPUSD=X"), ("USDJPY", "JPY=X"),
                      ("USDCHF", "CHF=X"), ("AUDUSD", "AUDUSD=X"), ("USDCAD", "CAD=X"),
                      ("NZDUSD", "NZDUSD=X"), ("XAUUSD", "GC=F"), ("XAGUSD", "SI=F")]

  /** `_convert_symbol`: a listed symbol maps to its ticker, any other gets "=X" appended. */
  function ConvertSymbol(symbol: string): (r: string)
    ensures !HasKey(SymbolMap, symbol) ==> r == symbol + "=X"
  {
    match Get(SymbolMap, symbol)
    case Some(t) => t
    case None => symbol + "=X"
  }

  /** Every listed symbol maps to its own ticker. */
  lemma ConvertListed(i: nat)
    requires i < |SymbolMap|
    ensures ConvertSymbol(SymbolMap[i].0) == SymbolMap[i].1
  {
    assert Unique(Keys(SymbolMap));
    UniqueGetAt(SymbolMap, i);
  }

  // ------------------------------------------------------------ locating the decision

  /** The frame's index: dates strictly increase. */
  predicate Increasing(dates: seq<int>)
  {
    forall i, j :: 0 <= i < j < |dates| ==> dates[i] < dates[j]
  }

  /** `index.get_loc(d)` for a date in the index. */
  function IndexIn(dates: seq<int>, d: int): (r: nat)
    requires d in dates
    ensures r < |dates| && dates[r] == d
  {
    if dates[0] == d then 0 else 1 + IndexIn(dates[1..], d)
  }

  /** `get_indexer([d], method='pad')[0]`: the last position with a date at most d, or -1. */
  function PadIndex(dates: seq<int>, d: int): (r: int)
    decreases |dates|
    ensures -1 <= r < |dates|
    ensures r >= 0 ==> dates[r] <= d
    ensures forall j :: r < j < |dates| ==> dates[j] > d
  {
    if |dates| == 0 then -1
    else if dates[|dates| - 1] <= d then |dates| - 1
    else PadIndex(dates[..|dates| - 1], d)
  }

  const NoData := "无数据"
  const AfterData := "决策日期在数据范围之后"
  const NoEntry := "无法找到有效入场点"

  /** The decision row of `run_backtest`, or the error it returns. */
  function EntryIndex(dates: seq<int>, d: int): Result<nat>
  {
    if |dates| == 0 then Err(NoData)
    else if d !in dates && d > dates[|dates| - 1] then Err(AfterData)
    else
      var idx := if d in dates then IndexIn(dates, d) else PadIndex(dates, d);
      if idx < 0 || idx >= |dates| - 5 then Err(NoEntry) else Ok(idx)
  }

  /**
   * On an increasing index the decision row is the last one dated at most d,
   * with at least five rows after it; the errors are an empty frame, a date
   * after the data, and a row before the data or among the last five.
   */
  lemma EntryIndexMeaning(dates: seq<int>, d: int)
    requires Increasing(dates)
    ensures |dates| == 0 ==> EntryIndex(dates, d) == Err(NoData)
    ensures |dates| > 0 && d > dates[|dates| - 1] ==> EntryIndex(dates, d) == Err(AfterData)
    ensures |dates| > 0 && d <= dates[|dates| - 1] ==>
      var p := PadIndex(dates, d);
      EntryIndex(dates, d) == if p < 0 || p >= |dates| - 5 then Err(NoEntry) else Ok(p)
    ensures EntryIndex(dates, d).Ok? ==>
      var i := EntryIndex(dates, d).value;
      i + 5 < |dates| && dates[i] <= d && forall j :: i < j < |dates| ==> dates[j] > d
  {
    if |dates| > 0 && d in dates {
      var i := IndexIn(dates, d);
      var p := PadIndex(dates, d);
      assert dates[i] == d;
    }
  }

  // ------------------------------------------------------------ the holding period

  /** `spread_pips / 10000`. */
  function Spread(pips: real): real
  {
    pips / 10000.0
  }

  /** The entry price: the ask (close plus spread) for a buy, the bid for a sell. */
  function EntryPrice(close: real, spread: real, buy: bool): real
  {
    if buy then close + spread else close - spread
  }

  /** `min(decision_idx + i + 1, len(data) - 1)`. */
  function ExitIndex(idx: nat, i: nat, n: nat): nat
    requires n >= 1
  {
    if idx + i + 1 < n - 1 then idx + i + 1 else n - 1
  }

  /** The percentage profit at one price of the holding period, closing at bid (buy) or ask (sell). */
  function PnlPct(price: real, entry: real, spread: real, buy: bool): real
    requires entry != 0.0
  {
    if buy then (price - spread - entry) / entry * 100.0
    else (entry - (price + spread)) / entry * 100.0
  }

  /** The loop goes on after a point: it stops after a loss beyond 20% or a gain beyond 30%. */
  predicate InBand(p: real)
  {
    -20.0 <= p <= 30.0
  }

  /**
   * What the holding loop records, stated on its own: at most `hold_days`
   * points (at least one if it is positive), point i valued at the close of the
   * clamped exit row, every point but the last within the band, and an early
   * end only after a point outside it.
   */
  ghost predicate HoldingCurve(closes: seq<real>, idx: nat, entry: real, spread: real, buy: bool,
                               holdDays: int, curve: seq<real>)
    requires idx < |closes| && entry != 0.0
  {
    |curve| <= (if holdDays > 0 then holdDays else 0)
    && (holdDays >= 1 ==> |curve| >= 1)
    && (forall i :: 0 <= i < |curve| ==> curve[i] == PnlPct(closes[ExitIndex(idx, i, |closes|)], entry, spread, buy))
    && (forall i :: 0 <= i < |curve| - 1 ==> InBand(curve[i]))
    && (0 < |curve| < holdDays ==> !InBand(curve[|curve| - 1]))
  }

  /** The holding period fixes the curve: two curves it allows are the same. */
  lemma HoldingCurveUnique(closes: seq<real>, idx: nat, entry: real, spread: real, buy: bool,
                           holdDays: int, c1: seq<real>, c2: seq<real>)
    requires idx < |closes| && entry != 0.0
    requires HoldingCurve(closes, idx, entry, spread, buy, holdDays, c1)
    requires HoldingCurve(closes, idx, entry, spread, buy, holdDays, c2)
    ensures c1 == c2
  {
  }

  /** The `for i in range(hold_days)` loop of `run_backtest`: the equity curve. */
  method Hold(closes: seq<real>, idx: nat, entry: real, spread: real, buy: bool, holdDays: int)
    returns (curve: seq<real>)
    requires idx < |closes| && entry != 0.0
    ensures HoldingCurve(closes, idx, entry, spread, buy, holdDays, curve)
  {
    curve := [];
    var i := 0;
    while i < holdDays
      invariant 0 <= i <= (if holdDays > 0 then holdDays else 0) && |curve| == i
      invariant forall j :: 0 <= j < i ==> curve[j] == PnlPct(closes[ExitIndex(idx, j, |closes|)], entry, spread, buy)
      invariant forall j :: 0 <= j < i ==> InBand(curve[j])
    {
      var exitIdx := ExitIndex(idx, i, |closes|);
      var pnl := PnlPct(closes[exitIdx], entry, spread, buy);
      curve := curve + [pnl];
      if pnl < -20.0 || pnl > 30.0 {
        return;
      }
      i := i + 1;
    }
  }

  // ------------------------------------------------------------ the result

  /** The engine's settings: `initial_capital` and `spread_pips`. */
  datatype Engine = Engine(initialCapital: real, spreadPips: real)

  const DefaultEngine := Engine(10000.0, 2.0)

  /** The result dict of `run_backtest` (the Sharpe ratio and the drawdown are not modelled). */
  datatype Backtest = Backtest(symbol: string, decisionDate: string, action: string,
                               entryPrice: real, exitPrice: real, holdDays: nat,
                               pnlPercent: real, pnlAmount: real, equityCurve: seq<real>,
                               maxProfit: real, maxLoss: real)

  /** The exit price at the last close: the bid for a buy, the ask for a sell. */
  function ExitPrice(last: real, spread: real, buy: bool): real
  {
    if buy then last - spread else last + spread
  }

  /** `final_pnl_pct`. */
  function FinalPnl(entry: real, exit: real, buy: bool): real
    requires entry != 0.0
  {
    if buy then (exit - entry) / entry * 100.0 else (entry - exit) / entry * 100.0
  }

  /** The final profit is the last point of the curve: closing at the last price of the holding period. */
  lemma FinalIsLastPoint(last: real, entry: real, spread: real, buy: bool)
    requires entry != 0.0
    ensures FinalPnl(entry, ExitPrice(last, spread, buy), buy) == PnlPct(last, entry, spread, buy)
  {
  }

  /** `pnl_amount`: the profit on a position of 1% of the capital. */
  function Amount(capital: real, pnlPct: real): real
  {
    capital * 0.01 * pnlPct / 100.0
  }

  /** The dict `run_backtest` returns once it has a curve with at least one point. */
  function Report(engine: Engine, symbol: string, decisionDate: string, action: string,
                  entry: real, last: real, curve: seq<real>): (r: Backtest)
    requires entry != 0.0 && |curve| > 0
    ensures r.holdDays == |curve| && r.equityCurve == curve
    ensures r.maxProfit == Round(SeqMax(curve), 2) && r.maxLoss == Round(SeqMin(curve), 2)
  {
    var buy := action == "BUY";
    var exit := ExitPrice(last, Spread(engine.spreadPips), buy);
    var final := FinalPnl(entry, exit, buy);
    Backtest(symbol, decisionDate, action, Round(entry, 5), Round(exit, 5), |curve|,
             Round(final, 2), Round(Amount(engine.initialCapital, final), 2), curve,
             Round(SeqMax(curve), 2), Round(SeqMin(curve), 2))
  }

  /**
   * `SimpleBacktestEngine.run_backtest` over the closes the fetcher returned.
   * A zero entry price would make numpy divide by zero; the model reports it
   * as an error.
   */
  method RunBacktest(engine: Engine, symbol: string, decisionDate: string, day: int, action: string,
                     holdDays: int, dates: seq<int>, closes: seq<real>)
    returns (r: Result<Backtest>)
    requires |dates| == |closes|
    ensures EntryIndex(dates, day).Err? ==> r == Err(EntryIndex(dates, day).msg)
    ensures EntryIndex(dates, day).Ok? && holdDays <= 0 ==> r == Err("IndexError: list index out of range")
    ensures r.Ok? ==>
      var idx := EntryIndex(dates, day).value;
      var buy := action == "BUY";
      var spread := Spread(engine.spreadPips);
      var entry := EntryPrice(closes[idx], spread, buy);
      var c := r.value.equityCurve;
      EntryIndex(dates, day).Ok? && holdDays >= 1 && entry != 0.0 && |c| >= 1
      && HoldingCurve(closes, idx, entry, spread, buy, holdDays, c)
      && r.value == Report(engine, symbol, decisionDate, action, entry, closes[ExitIndex(idx, |c| - 1, |closes|)], c)
    ensures EntryIndex(dates, day).Ok? && holdDays >= 1
            && EntryPrice(closes[EntryIndex(dates, day).value], Spread(engine.spreadPips), action == "BUY") != 0.0
            ==> r.Ok?
  {
    var loc := EntryIndex(dates, day);
    if loc.Err? {
      return Err(loc.msg);
    }
    var idx := loc.value;
    var buy := action == "BUY";
    var spread := Spread(engine.spreadPips);
    var entry := EntryPrice(closes[idx], spread, buy);
    if holdDays <= 0 {
      return Err("IndexError: list index out of range");
    }
    if entry == 0.0 {
      return Err("ZeroDivisionError: entry price is zero");
    }
    var curve := Hold(closes, idx, entry, spread, buy, holdDays);
    var last := closes[ExitIndex(idx, |curve| - 1, |closes|)];
    r := Ok(Report(engine, symbol, decisionDate, action, entry, last, curve));
  }

  /** The reported profit is the rounded last point of the equity curve, and the amount is 1% of capital at that rate. */
  lemma ReportFigures(engine: Engine, symbol: string, decisionDate: string, action: string,
                      entry: real, last: real, curve: seq<real>)
    requires entry != 0.0 && |curve| > 0
    requires curve[|curve| - 1] == PnlPct(last, entry, Spread(engine.spreadPips), action == "BUY")
    ensures var r := Report(engine, symbol, decisionDate, action, entry, last, curve);
      r.pnlPercent == Round(curve[|curve| - 1], 2)
      && r.pnlAmount == Round(Amount(engine.initialCapital, curve[|curve| - 1]), 2)
  {
    var buy := action == "BUY";
    var final := FinalPnl(entry, ExitPrice(last, Spread(engine.spreadPips), buy), buy);
    FinalIsLastPoint(last, entry, Spread(engine.spreadPips), buy);
    assert final == curve[|curve| - 1];
  }

  // ------------------------------------------------------------ batch dates

  /** `interval_days.get(interval, 7)`. */
  function IntervalDays(interval: string): (r: nat)
    ensures r >= 1
    ensures interval == "daily" ==> r == 1
    ensures interval == "monthly" ==> r == 30
    ensures interval != "daily" && interval != "monthly" ==> r == 7
  {
    if interval == "daily" then 1 else if interval == "weekly" then 7 else if interval == "monthly" then 30 else 7
  }

  /** The decision dates of `backtest_batch` (as day numbers): from the start, one step apart, none after the end. */
  method BatchDates(start: int, end: int, interval: string) returns (dates: seq<int>)
    ensures forall i :: 0 <= i < |dates| ==> dates[i] == start + i * IntervalDays(interval) && dates[i] <= end
    ensures start <= end ==> |dates| >= 1
    ensures |dates| > 0 ==> dates[|dates| - 1] + IntervalDays(interval) > end
    ensures |dates| == 0 ==> start > end
  {
    var step := IntervalDays(interval);
    dates := [];
    var current := start;
    while current <= end
      invariant current == start + |dates| * step
      invariant forall i :: 0 <= i < |dates| ==> dates[i] == start + i * step && dates[i] <= end
      invariant |dates| > 0 ==> dates[|dates| - 1] + step == current
      invariant |dates| == 0 ==> current == start
      decreases end - current
    {
      dates := dates + [current];
      current := current + step;
    }
  }

  /** Batch dates strictly increase. */
  lemma BatchDatesIncreasing(dates: seq<int>, start: int, step: nat)
    requires step >= 1
    requires forall i :: 0 <= i < |dates| ==> dates[i] == start + i * step
    ensures Increasing(dates)
  {
    forall i, j | 0 <= i < j < |dates|
      ensures dates[i] < dates[j]
    {
      assert dates[j] - dates[i] == (j - i) * step;
      MulAtLeast(j - i, step);
    }
  }

  lemma MulAtLeast(a: int, b: int)
    requires a >= 1 && b >= 1
    ensures a * b >= 1
  {
  }

  /** The results the batch keeps: those of the dates whose backtest did not fail, in date order. */
  function Kept<R>(dates: seq<int>, run: int -> Result<R>): (r: seq<R>)
    decreases |dates|
    ensures |r| <= |dates|
  {
    if |dates| == 0 then []
    else
      var n := |dates| - 1;
      Kept(dates[..n], run) + (if run(dates[n]).Ok? then [run(dates[n]).value] else [])
  }

  /** The `for date_str in dates` loop of `backtest_batch`, with `run` the engine applied to one date. */
  method RunBatch<R>(dates: seq<int>, run: int -> Result<R>) returns (results: seq<R>)
    ensures results == Kept(dates, run)
  {
    results := [];
    var i := 0;
    while i < |dates|
      invariant i <= |dates| && results == Kept(dates[..i], run)
    {
      assert dates[..i + 1][..i] == dates[..i];
      var result := run(dates[i]);
      if result.Ok? {
        results := results + [result.value];
      }
      i := i + 1;
    }
    WholePrefix(dates);
  }

  /** Every kept result is the successful backtest of one of the dates. */
  lemma {:induction false} KeptFromDates<R>(dates: seq<int>, run: int -> Result<R>, k: nat)
    requires k < |Kept(dates, run)|
    decreases |dates|
    ensures exists i :: 0 <= i < |dates| && run(dates[i]) == Ok(Kept(dates, run)[k])
  {
    var n := |dates| - 1;
    var front := Kept(dates[..n], run);
    if k < |front| {
      KeptFromDates(dates[..n], run, k);
      var i :| 0 <= i < n && run(dates[..n][i]) == Ok(front[k]);
      assert dates[..n][i] == dates[i];
    } else {
      assert run(dates[n]) == Ok(Kept(dates, run)[k]);
    }
  }

  // ------------------------------------------------------------ tiers

  /** The four grades of `display_results`, best first. */
  datatype Grade = Excellent | Good | Fair | Poor

  function GradeLabel(g: Grade): string
  {
    match g
    case Excellent => "🎯 优秀"
    case Good => "✅ 良好"
    case Fair => "🟡 一般"
    case Poor => "🔴 不佳"
  }

  /** 0 for the best grade, 3 for the worst. */
  function GradeOrder(g: Grade): nat
  {
    match g
    case Excellent => 0
    case Good => 1
    case Fair => 2
    case Poor => 3
  }

  /** `eval_pnl`, `eval_sharpe` and `eval_drawdown` share one shape: three descending thresholds. */
  function Tier(v: real, t1: real, t2: real, t3: real): Grade
  {
    if v > t1 then Excellent else if v > t2 then Good else if v > t3 then Fair else Poor
  }

  function EvalPnl(v: real): Grade { Tier(v, 10.0, 5.0, 0.0) }

  function EvalSharpe(v: real): Grade { Tier(v, 1.5, 1.0, 0.5) }

  function EvalDrawdown(v: real): Grade { Tier(v, -5.0, -10.0, -15.0) }

  /** A larger value never gets a worse grade. */
  lemma TierMonotone(a: real, b: real, t1: real, t2: real, t3: real)
    requires t3 <= t2 <= t1 && a <= b
    ensures GradeOrder(Tier(b, t1, t2, t3)) <= GradeOrder(Tier(a, t1, t2, t3))
  {
  }

  /** The grade is Excellent exactly above the first threshold and Poor exactly at or below the last. */
  lemma TierBounds(v: real, t1: real, t2: real, t3: real)
    requires t3 <= t2 <= t1
    ensures Tier(v, t1, t2, t3) == Excellent <==> v > t1
    ensures Tier(v, t1, t2, t3) == Poor <==> v <= t3
  {
  }

  /** The decision advice of `display_results`. */
  datatype Advice = StronglyExecute | Execute | Cautious | HighRisk | DoNotExecute

  function AdviceOf(pnl: real, sharpe: real, drawdown: real): Advice
  {
    if pnl > 10.0 && sharpe > 1.5 && drawdown > -10.0 then StronglyExecute
    else if pnl > 5.0 && sharpe > 1.0 && drawdown > -15.0 then Execute
    else if pnl > 0.0 then Cautious
    else if pnl > -5.0 then HighRisk
    else DoNotExecute
  }

  /**
   * The advice agrees with the grades: a strong recommendation needs an
   * excellent profit and Sharpe ratio and at least a good drawdown; any
   * recommendation needs a good profit; the two warnings are exactly the
   * losing results.
   */
  lemma AdviceAgreesWithGrades(pnl: real, sharpe: real, drawdown: real)
    ensures AdviceOf(pnl, sharpe, drawdown) == StronglyExecute ==>
      EvalPnl(pnl) == Excellent && EvalSharpe(sharpe) == Excellent && GradeOrder(EvalDrawdown(drawdown)) <= 1
    ensures AdviceOf(pnl, sharpe, drawdown) in {StronglyExecute, Execute} ==> GradeOrder(EvalPnl(pnl)) <= 1
    ensures AdviceOf(pnl, sharpe, drawdown) in {HighRisk, DoNotExecute} <==> EvalPnl(pnl) == Poor
    ensures AdviceOf(pnl, sharpe, drawdown) == DoNotExecute <==> pnl <= -5.0
  {
  }

  /** The strategy assessment of `display_batch_summary`. */
  datatype Assessment = Outstanding | Solid | Mediocre | Abandon

  /** The share of results with a profit above the bound, as a percentage. */
  function ShareAbove(pnls: seq<real>, bound: real): (r: real)
    requires |pnls| > 0
    ensures 0.0 <= r <= 100.0
  {
    var n := CountAbove(pnls, bound);
    Common.DivBounds(n as real, |pnls| as real, 0.0, 1.0);
    n as real / |pnls| as real * 100.0
  }

  function CountAbove(pnls: seq<real>, bound: real): (n: nat)
    ensures n <= |pnls|
  {
    if |pnls| == 0 then 0
    else CountAbove(pnls[..|pnls| - 1], bound) + (if pnls[|pnls| - 1] > bound then 1 else 0)
  }

  /** The batch verdict from the mean profit, the share of positive results and the mean Sharpe ratio. */
  function AssessBatch(pnls: seq<real>, sharpes: seq<real>): Assessment
    requires |pnls| > 0 && |sharpes| > 0
  {
    var avgPnl := Mean(pnls);
    var winRate := ShareAbove(pnls, 0.0);
    var avgSharpe := Mean(sharpes);
    if avgPnl > 5.0 && winRate > 60.0 && avgSharpe > 1.0 then Outstanding
    else if avgPnl > 2.0 && winRate > 50.0 && avgSharpe > 0.5 then Solid
    else if avgPnl > 0.0 then Mediocre
    else Abandon
  }

  /** A batch that loses on every test is to be abandoned. */
  lemma AllLosingAbandoned(pnls: seq<real>, sharpes: seq<real>)
    requires |pnls| > 0 && |sharpes| > 0
    requires forall i :: 0 <= i < |pnls| ==> pnls[i] <= 0.0
    ensures AssessBatch(pnls, sharpes) == Abandon
  {
    MeanAtMost(pnls, 0.0);
  }

  /** A batch with no positive result has a win rate of 0. */
  lemma {:induction false} NoWinnersNoRate(pnls: seq<real>)
    requires forall i :: 0 <= i < |pnls| ==> pnls[i] <= 0.0
    decreases |pnls|
    ensures CountAbove(pnls, 0.0) == 0
  {
    if |pnls| > 0 {
      NoWinnersNoRate(pnls[..|pnls| - 1]);
    }
  }
}
