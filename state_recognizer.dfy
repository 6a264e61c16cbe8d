/**
 * The market-state recognizer: the entry point that checks a price frame,
 * derives the technical data, has the classifier classify it, compiles the
 * full result and keeps the 50 most recent results for reports and
 * statistics.
 */
module StateRecognizer {
  import opened Common
  import opened MarketConfig
  import MC = MarketClassifier

  // ----------------------------------------------------------------- frames

  datatype RawFrame = RawFrame(columns: seq<string>, rows: seq<seq<real>>)

  /** A data frame: distinct column names and one value per column in every row. */
  type Frame = f: RawFrame | Unique(f.columns) && forall i :: 0 <= i < |f.rows| ==> |f.rows[i]| == |f.columns|
    witness RawFrame([], [])

  /** `df.empty`: no rows or no columns. */
  predicate Empty(f: Frame) { |f.rows| == 0 || |f.columns| == 0 }

  function ColumnIndex(columns: seq<string>, name: string): (j: nat)
    requires name in columns
    ensures j < |columns| && columns[j] == name
    ensures forall i :: 0 <= i < j ==> columns[i] != name
  {
    if columns[0] == name then 0 else 1 + ColumnIndex(columns[1..], name)
  }

  /** `df[name]`, as a sequence of values. */
  function Column(f: Frame, name: string): (c: seq<real>)
    requires name in f.columns
    ensures |c| == |f.rows|
  {
    var j := ColumnIndex(f.columns, name);
    seq(|f.rows|, i requires 0 <= i < |f.rows| => f.rows[i][j])
  }

  const Required: seq<string> := ["open", "high", "low", "close", "volume"]

  /** The position of the first of `names` missing from `columns`, if any. */
  function FirstMissing(names: seq<string>, columns: seq<string>): (r: Option<nat>)
    ensures r.None? ==> forall m :: 0 <= m < |names| ==> names[m] in columns
    ensures r.Some? ==> (r.value < |names| && names[r.value] !in columns
      && forall m :: 0 <= m < r.value ==> names[m] in columns)
  {
    if names == [] then None
    else if names[0] !in columns then Some(0)
    else
      match FirstMissing(names[1..], columns)
      case None => None
      case Some(k) => Some(k + 1)
  }

  predicate HasRequired(columns: seq<string>)
  {
    "open" in columns && "high" in columns && "low" in columns && "close" in columns && "volume" in columns
  }

  /** No required column is missing exactly when all five are present. */
  lemma RequiredPresent(columns: seq<string>)
    ensures FirstMissing(Required, columns).None? <==> HasRequired(columns)
  {
    assert Required[0] == "open" && Required[1] == "high" && Required[2] == "low";
    assert Required[3] == "close" && Required[4] == "volume";
  }

  // ------------------------------------------------------------- key levels

  predicate NonDecreasing(s: seq<real>) { forall i, j :: 0 <= i < j < |s| ==> s[i] <= s[j] }

  predicate Increasing(s: seq<real>) { forall i, j :: 0 <= i < j < |s| ==> s[i] < s[j] }

  function Insert(x: real, s: seq<real>): (r: seq<real>)
    ensures |r| == |s| + 1
  {
    if s == [] || x <= s[0] then [x] + s else [s[0]] + Insert(x, s[1..])
  }

  /** Insertion adds exactly x. */
  lemma {:induction false} InsertMultiset(x: real, s: seq<real>)
    ensures multiset(Insert(x, s)) == multiset(s) + multiset{x}
  {
    if !(s == [] || x <= s[0]) {
      InsertMultiset(x, s[1..]);
      assert s == [s[0]] + s[1..];
    }
  }

  /** Insertion into a sorted sequence keeps it sorted. */
  lemma {:induction false} InsertSorted(x: real, s: seq<real>)
    requires NonDecreasing(s)
    ensures NonDecreasing(Insert(x, s))
  {
    if !(s == [] || x <= s[0]) {
      var rest := Insert(x, s[1..]);
      InsertSorted(x, s[1..]);
      InsertMultiset(x, s[1..]);
      assert forall y :: y in rest ==> s[0] <= y by {
        forall y | y in rest
          ensures s[0] <= y
        {
          assert y in multiset(rest);
          if y != x {
            assert y in multiset(s[1..]);
            var k :| 0 <= k < |s[1..]| && s[1..][k] == y;
            assert s[k + 1] == y;
          }
        }
      }
      InsertFront(s[0], rest);
    } else {
      InsertFront(x, s);
    }
  }

  lemma InsertFront(a: real, rest: seq<real>)
    requires NonDecreasing(rest) && forall y :: y in rest ==> a <= y
    ensures NonDecreasing([a] + rest)
  {
    forall i, j | 0 <= i < j < |rest| + 1
      ensures ([a] + rest)[i] <= ([a] + rest)[j]
    {
      if i > 0 {
        assert ([a] + rest)[i] == rest[i - 1];
      }
      assert ([a] + rest)[j] == rest[j - 1] && rest[j - 1] in rest;
    }
  }

  /** `sorted(s)`. */
  function SortAscending(s: seq<real>): (r: seq<real>)
    ensures NonDecreasing(r) && multiset(r) == multiset(s) && |r| == |s|
  {
    if s == [] then []
    else
      var t := SortAscending(s[1..]);
      InsertMultiset(s[0], t);
      InsertSorted(s[0], t);
      assert s == [s[0]] + s[1..];
      Insert(s[0], t)
  }

  function InsertUnique(x: real, s: seq<real>): (r: seq<real>)
    requires Increasing(s)
    ensures Increasing(r) && forall y :: y in r <==> y == x || y in s
  {
    if s == [] || x < s[0] then [x] + s
    else if x == s[0] then s
    else
      var rest := InsertUnique(x, s[1..]);
      assert forall y :: y in s <==> y == s[0] || y in s[1..];
      assert forall k :: 0 <= k < |s| - 1 ==> s[1..][k] == s[k + 1];
      assert forall y :: y in rest ==> s[0] < y;
      assert forall i, j :: 0 <= i < j < |rest| + 1 ==> ([s[0]] + rest)[i] < ([s[0]] + rest)[j] by {
        forall i, j | 0 <= i < j < |rest| + 1
          ensures ([s[0]] + rest)[i] < ([s[0]] + rest)[j]
        {
          assert ([s[0]] + rest)[j] == rest[j - 1] && rest[j - 1] in rest;
          if i > 0 { assert ([s[0]] + rest)[i] == rest[i - 1]; }
        }
      }
      [s[0]] + rest
  }

  /** `sorted(set(xs))`: the distinct values, in increasing order. */
  function SortedSet(xs: seq<real>): (r: seq<real>)
    ensures Increasing(r) && forall y :: y in r <==> y in xs
  {
    if xs == [] then []
    else
      assert forall y :: y in xs <==> y == xs[0] || y in xs[1..];
      InsertUnique(xs[0], SortedSet(xs[1..]))
  }

  /** Linear interpolation between the i-th and next sorted values, as `np.percentile` does. */
  function Interpolate(s: seq<real>, i: nat, frac: real): real
    requires i + 1 < |s|
  {
    s[i] + frac * (s[i + 1] - s[i])
  }

  /** Minimum, quartiles, median and maximum of the last 20 closes (ranks 4.75, 9.5 and 14.25). */
  function LevelCandidates(closes: seq<real>): (r: seq<real>)
    requires |closes| >= 20
    ensures |r| == 5
  {
    var s := SortAscending(closes[|closes| - 20..]);
    [s[0], Interpolate(s, 4, 0.75), Interpolate(s, 9, 0.5), Interpolate(s, 14, 0.25), s[19]]
  }

  /** The positive candidates rounded to four places. */
  function RoundedPositives(xs: seq<real>): (r: seq<real>)
    ensures |r| <= |xs|
    ensures forall y :: y in r <==> exists i :: 0 <= i < |xs| && xs[i] > 0.0 && y == Round(xs[i], 4)
  {
    if xs == [] then []
    else
      var rest := RoundedPositives(xs[1..]);
      assert forall i :: 0 < i < |xs| ==> xs[i] == xs[1..][i - 1];
      if xs[0] > 0.0 then [Round(xs[0], 4)] + rest else rest
  }

  /** `_identify_key_levels`. */
  function IdentifyKeyLevels(closes: seq<real>): (r: seq<real>)
    ensures |closes| < 20 ==> r == []
    ensures Increasing(r) && |r| <= 5
    ensures |closes| >= 20 ==>
      forall y :: y in r <==> exists i :: 0 <= i < 5 && LevelCandidates(closes)[i] > 0.0 && y == Round(LevelCandidates(closes)[i], 4)
  {
    if |closes| < 20 then []
    else
      var r := SortedSet(RoundedPositives(LevelCandidates(closes)));
      IncreasingAtMost(r, RoundedPositives(LevelCandidates(closes)));
      r
  }

  /** An increasing sequence drawn from at most five rounded candidates has at most five members. */
  lemma IncreasingAtMost(r: seq<real>, xs: seq<real>)
    requires Increasing(r) && (forall y :: y in r ==> y in xs) && |xs| <= 5
    ensures |r| <= 5
  {
    DistinctBound(r, xs);
  }

  /** An increasing sequence whose members all occur in xs is no longer than xs. */
  lemma {:induction false} DistinctBound(r: seq<real>, xs: seq<real>)
    requires Increasing(r) && forall y :: y in r ==> y in xs
    ensures |r| <= |xs|
    decreases |r|
  {
    if r != [] {
      var last := r[|r| - 1];
      assert last in r;
      var k :| 0 <= k < |xs| && xs[k] == last;
      var xs' := xs[..k] + xs[k + 1..];
      forall y | y in r[..|r| - 1]
        ensures y in xs'
      {
        var i :| 0 <= i < |r| - 1 && r[i] == y;
        assert y != last && r[i] in r;
        var m :| 0 <= m < |xs| && xs[m] == y;
        if m < k { assert xs'[m] == y; } else { assert xs'[m - 1] == y; }
      }
      DistinctBound(r[..|r| - 1], xs');
    }
  }

  /** Every key level is non-negative: rounding never makes a positive level negative. */
  lemma KeyLevelsNonNegative(closes: seq<real>, y: real)
    requires y in IdentifyKeyLevels(closes)
    ensures y >= 0.0
  {
    var c := LevelCandidates(closes);
    var i :| 0 <= i < 5 && c[i] > 0.0 && y == Round(c[i], 4);
    RoundNonNegative(c[i], 4);
  }

  // --------------------------------------------------------- technical data

  type Dict = seq<(string, Value)>

  /** The failure dictionary of `_get_technical_data`. */
  function Failure(symbol: string, error: string): Dict
  {
    [("success", Bool(false)), ("error", Str(error)), ("symbol", Str(symbol))]
  }

  /** The message for a frame truth test: `not frame` raises on a data frame. */
  const AmbiguousTruth := "技术数据处理错误: The truth value of a DataFrame is ambiguous. Use a.empty, a.bool(), a.any() or a.all()."

  /**
   * `_get_technical_data` as written: after the column check the indicator
   * frame is tested with `not`, which raises for every data frame, so the
   * function can only fail.
   */
  function TechnicalDataAsWritten(symbol: string, f: Frame): (r: Dict)
    ensures FirstMissing(Required, f.columns).Some? ==>
      r == Failure(symbol, "缺少必要列: " + Required[FirstMissing(Required, f.columns).value])
    ensures FirstMissing(Required, f.columns).None? ==> r == Failure(symbol, AmbiguousTruth)
  {
    match FirstMissing(Required, f.columns)
    case Some(k) => Failure(symbol, "缺少必要列: " + Required[k])
    case None => Failure(symbol, AmbiguousTruth)
  }

  /** The latest value of every non-price column of the indicator frame. */
  function LatestIndicators(ind: Frame): (r: Dict)
    requires |ind.rows| > 0
    ensures forall e :: e in r ==> e.0 in ind.columns && e.0 !in Required && e.1.Num?
    ensures forall c :: c in ind.columns && c !in Required ==> HasKey(r, c)
  {
    LatestFrom(ind, 0)
  }

  function LatestFrom(ind: Frame, j: nat): (r: Dict)
    requires |ind.rows| > 0 && j <= |ind.columns|
    ensures forall e :: e in r ==> e.0 in ind.columns[j..] && e.0 !in Required && e.1.Num?
    ensures forall k :: j <= k < |ind.columns| && ind.columns[k] !in Required ==> HasKey(r, ind.columns[k])
    decreases |ind.columns| - j
  {
    if j == |ind.columns| then []
    else
      var rest := LatestFrom(ind, j + 1);
      var c := ind.columns[j];
      assert ind.columns[j..] == [c] + ind.columns[j + 1..];
      if c in Required then rest
      else
        var r := [(c, Num(ind.rows[|ind.rows| - 1][j]))] + rest;
        assert forall k :: j < k < |ind.columns| && ind.columns[k] !in Required ==> HasKey(r, ind.columns[k]) by {
          forall k | j < k < |ind.columns| && ind.columns[k] !in Required ensures HasKey(r, ind.columns[k]) {
            HasKeyConcat([(c, Num(ind.rows[|ind.rows| - 1][j]))], rest, ind.columns[k]);
          }
        }
        assert r[0].0 == c;
        r
  }

  /** The last-row prices, and the change of the last close over the one before. */
  function PriceData(f: Frame): (r: Dict)
    requires |f.rows| > 0 && HasRequired(f.columns)
  {
    var n := |f.rows|;
    [("current", Num(Column(f, "close")[n - 1])), ("open", Num(Column(f, "open")[n - 1])),
     ("high", Num(Column(f, "high")[n - 1])), ("low", Num(Column(f, "low")[n - 1])),
     ("volume", Num(Column(f, "volume")[n - 1]))]
  }

  /** `(current - previous) / previous`, or 0 with a single row; a zero previous close has no value here. */
  function PriceChange(closes: seq<real>): (r: Value)
    ensures |closes| < 2 ==> r == Int(0)
    ensures |closes| >= 2 && closes[|closes| - 2] != 0.0 ==>
      r == Num((closes[|closes| - 1] - closes[|closes| - 2]) / closes[|closes| - 2])
  {
    var n := |closes|;
    if n < 2 then Int(0)
    else if closes[n - 2] == 0.0 then Null
    else Num((closes[n - 1] - closes[n - 2]) / closes[n - 2])
  }

  function Numbers(xs: seq<real>): (r: seq<Value>)
    ensures |r| == |xs| && forall i :: 0 <= i < |xs| ==> r[i] == Num(xs[i])
  {
    seq(|xs|, i requires 0 <= i < |xs| => Num(xs[i]))
  }

  /**
   * `_get_technical_data` as intended: `ind` is the frame the indicator
   * computation returns for the data. A missing column, an empty indicator
   * frame or a frame without rows fails; otherwise the technical data
   * carries the latest indicators, prices, change and key levels.
   */
  function TechnicalData(symbol: string, f: Frame, ind: Frame): (r: Result<Dict>)
    ensures FirstMissing(Required, f.columns).Some? ==>
      r == Err("缺少必要列: " + Required[FirstMissing(Required, f.columns).value])
    ensures r.Ok? <==> HasRequired(f.columns) && !Empty(ind) && |f.rows| > 0
    ensures r.Ok? ==> GetOr(r.value, "success", Null) == Bool(true)
  {
    RequiredPresent(f.columns);
    match FirstMissing(Required, f.columns)
    case Some(k) => Err("缺少必要列: " + Required[k])
    case None =>
      if Empty(ind) then Err("技术指标计算失败")
      else if |f.rows| == 0 then Err("技术数据处理错误: single positional indexer is out-of-bounds")
      else Ok(TechnicalDict(symbol, f, ind))
  }

  function TechnicalDict(symbol: string, f: Frame, ind: Frame): Dict
    requires HasRequired(f.columns) && |ind.rows| > 0 && |f.rows| > 0
  {
    var closes := Column(f, "close");
    var n := |f.rows|;
    [("success", Bool(true)), ("symbol", Str(symbol)), ("latest_indicators", Dict(LatestIndicators(ind))),
     ("price_data", Dict(PriceData(f))), ("price_change_pct", PriceChange(closes)),
     ("key_levels", List(Numbers(IdentifyKeyLevels(closes)))), ("data_points", Int(n)),
     ("timeframe", Str(NatToString(n) + "个周期"))]
  }

  /** Successful technical data reads back the latest indicators, the prices and the key levels of the closes. */
  lemma TechnicalDataFields(symbol: string, f: Frame, ind: Frame)
    requires TechnicalData(symbol, f, ind).Ok?
    ensures HasRequired(f.columns) && |f.rows| > 0 && |ind.rows| > 0
    ensures var d := TechnicalData(symbol, f, ind).value;
      GetOr(d, "success", Null) == Bool(true)
      && GetOr(d, "latest_indicators", Null) == Dict(LatestIndicators(ind))
      && GetOr(d, "price_data", Null) == Dict(PriceData(f))
      && GetOr(d, "key_levels", Null) == List(Numbers(IdentifyKeyLevels(Column(f, "close"))))
  {
    RequiredPresent(f.columns);
    var closes := Column(f, "close");
    var n := |f.rows|;
    TechnicalDictReads(Str(symbol), Dict(LatestIndicators(ind)), Dict(PriceData(f)), PriceChange(closes),
      List(Numbers(IdentifyKeyLevels(closes))), Int(n), Str(NatToString(n) + "个周期"));
  }

  /** Reading the fields of a technical-data dictionary back, whatever their values. */
  lemma TechnicalDictReads(sym: Value, latest: Value, prices: Value, change: Value, levels: Value, points: Value, frame: Value)
    ensures var d := [("success", Bool(true)), ("symbol", sym), ("latest_indicators", latest),
      ("price_data", prices), ("price_change_pct", change), ("key_levels", levels), ("data_points", points),
      ("timeframe", frame)];
      GetOr(d, "success", Null) == Bool(true) && GetOr(d, "latest_indicators", Null) == latest
      && GetOr(d, "price_data", Null) == prices && GetOr(d, "key_levels", Null) == levels
  {
    var d := [("success", Bool(true)), ("symbol", sym), ("latest_indicators", latest),
      ("price_data", prices), ("price_change_pct", change), ("key_levels", levels), ("data_points", points),
      ("timeframe", frame)];
    var keys := ["success", "symbol", "latest_indicators", "price_data", "price_change_pct", "key_levels"];
    assert forall j :: 0 <= j < 6 ==> d[j].0 == keys[j];
    assert forall j :: 0 <= j < 6 ==> |keys[j]| > 0;
    var initials := ['s', 's', 'l', 'p', 'p', 'k'];
    forall j | 0 <= j < 6 ensures keys[j][0] == initials[j] { }
    forall j | 0 <= j < 3 ensures d[j].0 != d[3].0 {
      assert keys[j][0] != keys[3][0];
    }
    forall j | 0 <= j < 5 ensures d[j].0 != d[5].0 {
      assert keys[j][0] != keys[5][0];
    }
    GetAt(d, 0);
    GetAt(d, 2);
    GetAt(d, 3);
    GetAt(d, 5);
  }

  /**
   * A frame with all five columns never yields technical data as written,
   * while the intended version succeeds once the indicator frame has rows.
   */
  lemma AsWrittenNeverSucceeds(symbol: string, f: Frame, ind: Frame)
    requires HasRequired(f.columns) && |f.rows| > 0 && !Empty(ind)
    ensures TechnicalDataAsWritten(symbol, f) == Failure(symbol, AmbiguousTruth)
    ensures TechnicalData(symbol, f, ind).Ok? && GetOr(TechnicalData(symbol, f, ind).value, "success", Null) == Bool(true)
  {
    RequiredPresent(f.columns);
    TechnicalDataFields(symbol, f, ind);
  }

  // ---------------------------------------------------------------- results

  /** A result of `analyze_market`; time stamps are parameters and timings are left out. */
  datatype AnalysisResult =
    | ErrorResult(message: string)
    | Compiled(success: bool, symbol: string, timestamp: string, marketState: MarketState, confidence: real,
               subStates: seq<(string, string)>, signals: seq<MC.TradingSignal>, summary: string,
               recommendation: string, conditions: seq<string>, error: string)
  {
    function Succeeded(): bool { Compiled? && success }
    function ErrorText(): string { if ErrorResult? then message else error }
    function State(): MarketState { if ErrorResult? then Uncertain else marketState }
    function Confidence(): real { if ErrorResult? then 0.0 else confidence }
    function Summary(): string { if ErrorResult? then "分析失败: " + message else summary }
    function Recommendation(): string { if ErrorResult? then "无法分析，请检查数据" else recommendation }
  }

  /** `_compile_full_analysis` of a classifier report. */
  function Compile(symbol: string, report: MC.StateReport, stamp: string): (r: AnalysisResult)
    requires report.Unclassified? ==> report.error.Str?
    ensures r.Compiled? && r.symbol == symbol && r.timestamp == stamp
    ensures r.success <==> report.Classified?
    ensures r.State() == report.StateField() && r.Confidence() == report.ConfidenceField()
    ensures report.Unclassified? ==> r.error == report.error.s && r.signals == [] && r.subStates == []
  {
    match report
    case Classified(st, conf, trendSub, volSub, patternSub, _, _, _, _, signals, summary, rec, conditions) =>
      Compiled(true, symbol, stamp, st, conf, [("trend", trendSub), ("volatility", volSub), ("pattern", patternSub)],
               signals, summary, rec, conditions, "")
    case Unclassified(e) =>
      Compiled(false, symbol, stamp, Uncertain, 0.0, [], [], "", "", [], e.s)
  }

  // ----------------------------------------------------------------- report

  const Rule := "=================================================="

  /** The numbered action lines of at most the first three signals. */
  function SignalLines(signals: seq<MC.TradingSignal>): (r: seq<string>)
    ensures |r| == Min(|signals| as real, 3.0).Floor
    ensures forall i :: 0 <= i < |r| ==>
      r[i] == "  " + NatToString(i + 1) + ". " + ActionText(signals[i])
  {
    var n := if |signals| < 3 then |signals| else 3;
    seq(n, i requires 0 <= i < n => "  " + NatToString(i + 1) + ". " + ActionText(signals[i]))
  }

  /** `f"{action} - {reason}"`; advice entries have neither. */
  function ActionText(s: MC.TradingSignal): string
  {
    if s.Base? then s.action + " - " + s.reason else "N/A - "
  }

  /** The lines of `generate_report` for a successful result. */
  function ReportBody(r: AnalysisResult): (lines: seq<string>)
    requires r.Compiled?
    ensures |lines| >= 7 && lines[0] == Rule && lines[3] == Rule && lines[|lines| - 1] == "\n" + Rule
    ensures lines[1] == "市场分析报告 - " + r.symbol && lines[4] == "市场状态: " + r.marketState.Value()
  {
    [Rule, "市场分析报告 - " + r.symbol, "时间: " + r.timestamp, Rule,
     "市场状态: " + r.marketState.Value(), "置信度: " + Fixed2(r.confidence)]
    + (if r.subStates == [] then [] else ["\n子状态:"] + SubStateLines(r.subStates))
    + (if r.conditions == [] then [] else ["\n市场特征:"] + ConditionLines(r.conditions))
    + (if r.signals == [] then [] else ["\n交易信号:"] + SignalLines(r.signals))
    + (if r.recommendation == "" then [] else ["\n建议: " + r.recommendation])
    + (if r.summary == "" then [] else ["\n摘要: " + r.summary])
    + ["\n" + Rule]
  }

  function SubStateLines(subs: seq<(string, string)>): (r: seq<string>)
    ensures |r| == |subs| && forall i :: 0 <= i < |subs| ==> r[i] == "  " + subs[i].0 + ": " + subs[i].1
  {
    seq(|subs|, i requires 0 <= i < |subs| => "  " + subs[i].0 + ": " + subs[i].1)
  }

  function ConditionLines(conditions: seq<string>): (r: seq<string>)
    ensures |r| == |conditions| && forall i :: 0 <= i < |conditions| ==> r[i] == "  • " + conditions[i]
  {
    seq(|conditions|, i requires 0 <= i < |conditions| => "  • " + conditions[i])
  }

  /** `generate_report`: a failure is one line naming the error; a success is the framed report. */
  function GenerateReport(r: AnalysisResult): (text: string)
    ensures !r.Succeeded() ==> text == "分析失败: " + r.ErrorText()
    ensures r.Succeeded() ==> text == Join(ReportBody(r), "\n")
  {
    if !r.Succeeded() then "分析失败: " + r.ErrorText() else Join(ReportBody(r), "\n")
  }

  /** A report lists at most three signals, whatever the number of signals. */
  lemma ReportListsAtMostThree(signals: seq<MC.TradingSignal>)
    ensures |SignalLines(signals)| <= 3
  {
  }

  // ------------------------------------------------------------- statistics

  datatype Statistics =
    | NoAnalyses
    | Stats(total: nat, successful: nat, successRate: real, distribution: seq<(string, int)>, cacheSize: nat)

  /** The state names of the successful results, in order. */
  function SuccessfulStates(h: seq<AnalysisResult>): (r: seq<string>)
    ensures |r| <= |h|
  {
    if h == [] then []
    else SuccessfulStates(h[..|h| - 1]) + (if h[|h| - 1].Succeeded() then [h[|h| - 1].State().Value()] else [])
  }

  /** `get_statistics` on a cache. */
  function StatisticsOf(h: seq<AnalysisResult>): (s: Statistics)
    ensures h == [] <==> s == NoAnalyses
    ensures s.Stats? ==> s.total == |h| == s.cacheSize && s.successful <= s.total && 0.0 <= s.successRate <= 1.0
  {
    if h == [] then NoAnalyses
    else
      var ok := SuccessfulStates(h);
      DivBounds(|ok| as real, |h| as real, 0.0, 1.0);
      Stats(|h|, |ok|, |ok| as real / |h| as real, Counts(ok), |h|)
  }

  /** The distribution counts the successful results only: its counts add up to their number. */
  lemma DistributionCountsSuccesses(h: seq<AnalysisResult>)
    requires h != []
    ensures TotalCount(StatisticsOf(h).distribution) == StatisticsOf(h).successful
  {
    CountsTotal(SuccessfulStates(h));
  }

  /** Each state's entry is its number of successful results. */
  lemma DistributionEntry(h: seq<AnalysisResult>, state: MarketState)
    requires h != []
    ensures GetOr(StatisticsOf(h).distribution, state.Value(), 0) == Count(SuccessfulStates(h), state.Value())
  {
    CountsValue(SuccessfulStates(h), state.Value());
  }

  /**
   * What `analyze_market(symbol, f)` returns, apart from the cache it updates: the
   * insufficient-data error, the technical-data error, or the compiled report of a
   * classification of the technical data.
   */
  ghost predicate IsAnalysisOf(symbol: string, f: Frame, calculate: Frame -> Frame, config: MarketAnalysisConfig,
                               stamp: string, r: AnalysisResult)
  {
    if Empty(f) || |f.rows| < config.minDataPoints then
      r == ErrorResult("数据不足，至少需要" + IntToString(config.minDataPoints) + "个数据点")
    else if TechnicalData(symbol, f, calculate(f)).Err? then
      r == ErrorResult(TechnicalData(symbol, f, calculate(f)).msg)
    else
      exists report :: MC.IsStateReport(TechnicalData(symbol, f, calculate(f)).value, config, report)
                       && r == Compile(symbol, report, stamp)
  }

  /** `outs[j]` is the analysis of pair j, for every j below `|outs|`. */
  ghost predicate AllAnalysed(d: seq<(string, Frame)>, outs: seq<AnalysisResult>, calculate: Frame -> Frame,
                              config: MarketAnalysisConfig, stamp: string)
    requires |outs| <= |d|
    decreases |outs|
  {
    |outs| == 0
    || (AllAnalysed(d, outs[..|outs| - 1], calculate, config, stamp)
        && IsAnalysisOf(d[|outs| - 1].0, d[|outs| - 1].1, calculate, config, stamp, outs[|outs| - 1]))
  }

  lemma AllAnalysedSnoc(d: seq<(string, Frame)>, outs: seq<AnalysisResult>, r: AnalysisResult, calculate: Frame -> Frame,
                        config: MarketAnalysisConfig, stamp: string)
    requires |outs| < |d| && AllAnalysed(d, outs, calculate, config, stamp)
    requires IsAnalysisOf(d[|outs|].0, d[|outs|].1, calculate, config, stamp, r)
    ensures AllAnalysed(d, outs + [r], calculate, config, stamp)
  {
    assert (outs + [r])[..|outs|] == outs;
  }

  lemma {:induction false} AllAnalysedAt(d: seq<(string, Frame)>, outs: seq<AnalysisResult>, calculate: Frame -> Frame,
                                         config: MarketAnalysisConfig, stamp: string, j: nat)
    requires |outs| <= |d| && j < |outs| && AllAnalysed(d, outs, calculate, config, stamp)
    ensures IsAnalysisOf(d[j].0, d[j].1, calculate, config, stamp, outs[j])
  {
    if j < |outs| - 1 {
      AllAnalysedAt(d, outs[..|outs| - 1], calculate, config, stamp, j);
      assert outs[..|outs| - 1][j] == outs[j];
    }
  }

  /** When the last pair of each key has its outcome stored under the key, every such pair's analysis is stored. */
  lemma BatchOutcomes(results: seq<(string, AnalysisResult)>, d: seq<(string, Frame)>, outs: seq<AnalysisResult>,
                      calculate: Frame -> Frame, config: MarketAnalysisConfig, stamp: string)
    requires |outs| == |d| && AllAnalysed(d, outs, calculate, config, stamp)
    requires forall j | 0 <= j < |d| && LastOfKey(d, j, |d|) :: Get(results, d[j].0) == Some(outs[j])
    ensures forall j | 0 <= j < |d| && LastOfKey(d, j, |d|) ::
      HasKey(results, d[j].0) && IsAnalysisOf(d[j].0, d[j].1, calculate, config, stamp, Get(results, d[j].0).value)
  {
    forall j | 0 <= j < |d| && LastOfKey(d, j, |d|)
      ensures HasKey(results, d[j].0)
      ensures IsAnalysisOf(d[j].0, d[j].1, calculate, config, stamp, Get(results, d[j].0).value)
    {
      AllAnalysedAt(d, outs, calculate, config, stamp, j);
    }
  }

  /** No pair after position i, up to n, has the key of pair i. */
  ghost predicate LastOfKey<V>(d: seq<(string, V)>, i: nat, n: nat)
    requires i < n <= |d|
  {
    forall j :: i < j < n ==> d[j].0 != d[i].0
  }

  /**
   * Storing `outs[n]` under the key of pair n keeps, for every pair that is the last
   * of its key among the first n + 1, its own outcome under its key.
   */
  lemma {:induction false} LastValuesStep<V, W>(results: seq<(string, W)>, d: seq<(string, V)>, outs: seq<W>, n: nat)
    requires n < |d| && n < |outs|
    requires forall i | 0 <= i < n && LastOfKey(d, i, n) :: Get(results, d[i].0) == Some(outs[i])
    ensures var next := Put(results, d[n].0, outs[n]);
      forall i | 0 <= i < n + 1 && LastOfKey(d, i, n + 1) :: Get(next, d[i].0) == Some(outs[i])
  {
    var next := Put(results, d[n].0, outs[n]);
    forall i | 0 <= i < n + 1 && LastOfKey(d, i, n + 1)
      ensures Get(next, d[i].0) == Some(outs[i])
    {
      PutGet(results, d[n].0, outs[n], d[i].0);
      if i < n {
        assert d[n].0 != d[i].0;
        assert LastOfKey(d, i, n);
      }
    }
  }

  // ------------------------------------------------------------- recognizer

  const CacheCap: nat := 50

  class Recognizer {
    const config: MarketAnalysisConfig
    const classifier: MC.Classifier
    var recentAnalyses: seq<AnalysisResult>
    /** Every result ever cached, oldest first. */
    ghost var log: seq<AnalysisResult>

    /** The classifier shares the configuration and the cache is the last 50 results. */
    ghost predicate Valid()
      reads this, classifier
    {
      classifier.Valid() && classifier.config == config && recentAnalyses == TakeLast(log, CacheCap)
    }

    /** `MarketStateRecognizer(config)`: the default configuration when none is given, validated. */
    constructor (c: Option<MarketAnalysisConfig>)
      requires Validate(if c.Some? then c.value else DefaultConfig()).Ok?
      ensures Valid() && fresh(classifier)
      ensures config == (if c.Some? then c.value else DefaultConfig())
      ensures recentAnalyses == [] && log == [] && classifier.stateHistory == []
    {
      var cfg := if c.Some? then c.value else DefaultConfig();
      config := cfg;
      classifier := new MC.Classifier(cfg);
      recentAnalyses := [];
      log := [];
    }

    /** `_cache_analysis`: append and keep the last 50. */
    method CacheAnalysis(a: AnalysisResult)
      requires Valid()
      modifies this`recentAnalyses, this`log
      ensures Valid()
      ensures log == old(log) + [a] && recentAnalyses == AppendCapped(old(recentAnalyses), a, CacheCap)
    {
      CappedSuffix(log, a, CacheCap);
      recentAnalyses := AppendCapped(recentAnalyses, a, CacheCap);
      log := log + [a];
    }

    /**
     * `analyze_market`: too little data or failed technical data gives an
     * error result and changes nothing; otherwise the classifier's report is
     * compiled, cached and returned. `calculate` stands for the indicator
     * computation, `now` and `stamp` for the clock; `report` names the
     * classifier's report the result is compiled from.
     */
    method AnalyzeMarket(symbol: string, f: Frame, calculate: Frame -> Frame, now: int, stamp: string)
      returns (r: AnalysisResult, ghost report: MC.StateReport)
      requires Valid()
      modifies this`recentAnalyses, this`log, classifier`stateHistory, classifier`log
      ensures Valid()
      ensures Empty(f) || |f.rows| < config.minDataPoints ==>
        r == ErrorResult("数据不足，至少需要" + IntToString(config.minDataPoints) + "个数据点")
      ensures !(Empty(f) || |f.rows| < config.minDataPoints) && TechnicalData(symbol, f, calculate(f)).Err? ==>
        r == ErrorResult(TechnicalData(symbol, f, calculate(f)).msg)
      ensures r.Compiled? <==> !(Empty(f) || |f.rows| < config.minDataPoints) && TechnicalData(symbol, f, calculate(f)).Ok?
      ensures r.ErrorResult? ==>
        log == old(log) && recentAnalyses == old(recentAnalyses) && classifier.stateHistory == old(classifier.stateHistory)
      ensures r.Compiled? ==>
        TechnicalData(symbol, f, calculate(f)).Ok?
        && MC.IsStateReport(TechnicalData(symbol, f, calculate(f)).value, config, report)
        && r == Compile(symbol, report, stamp)
        && (report.Classified? ==>
              classifier.log == old(classifier.log) + [MC.HistoryEntry(now, report.marketState, report.confidence, report.conditions)])
        && (report.Unclassified? ==> classifier.log == old(classifier.log))
        && log == old(log) + [r] && recentAnalyses == AppendCapped(old(recentAnalyses), r, CacheCap)
      ensures IsAnalysisOf(symbol, f, calculate, config, stamp, r)
    {
      report := MC.Unclassified(Null);
      if Empty(f) || |f.rows| < config.minDataPoints {
        return ErrorResult("数据不足，至少需要" + IntToString(config.minDataPoints) + "个数据点"), report;
      }
      var td := TechnicalData(symbol, f, calculate(f));
      if td.Err? {
        return ErrorResult(td.msg), report;
      }
      r, report := ClassifyAndCache(symbol, td.value, now, stamp);
    }

    /** The successful path of `analyze_market`: classify, compile the report, cache the result. */
    method ClassifyAndCache(symbol: string, technicalData: seq<(string, Value)>, now: int, stamp: string)
      returns (r: AnalysisResult, ghost report: MC.StateReport)
      requires Valid() && GetOr(technicalData, "success", Null) == Bool(true)
      modifies this`recentAnalyses, this`log, classifier`stateHistory, classifier`log
      ensures Valid()
      ensures MC.IsStateReport(technicalData, config, report) && r == Compile(symbol, report, stamp)
      ensures report.Classified? ==>
        classifier.log == old(classifier.log) + [MC.HistoryEntry(now, report.marketState, report.confidence, report.conditions)]
      ensures report.Unclassified? ==> classifier.log == old(classifier.log)
      ensures r.Compiled? && r.symbol == symbol && r.timestamp == stamp
      ensures log == old(log) + [r] && recentAnalyses == AppendCapped(old(recentAnalyses), r, CacheCap)
    {
      var rep := classifier.ClassifyMarketState(technicalData, now);
      report := rep;
      r := Compile(symbol, rep, stamp);
      CacheAnalysis(r);
    }

    /** One step of `batch_analyze`: `analyze_market` on one symbol's frame. */
    method AnalyzeEntry(symbol: string, f: Frame, calculate: Frame -> Frame, now: int, stamp: string)
      returns (r: AnalysisResult)
      requires Valid()
      modifies this`recentAnalyses, this`log, classifier`stateHistory, classifier`log
      ensures Valid()
      ensures IsAnalysisOf(symbol, f, calculate, config, stamp, r)
    {
      ghost var report;
      r, report := AnalyzeMarket(symbol, f, calculate, now, stamp);
    }

    /** `batch_analyze`: one result per symbol, keyed by symbol. */
    method BatchAnalyze(symbolsData: seq<(string, Frame)>, calculate: Frame -> Frame, now: int, stamp: string)
      returns (results: seq<(string, AnalysisResult)>)
      requires Valid()
      modifies this`recentAnalyses, this`log, classifier`stateHistory, classifier`log
      ensures Valid()
      ensures Unique(Keys(results))
      ensures forall k :: HasKey(results, k) <==> HasKey(symbolsData, k)
      ensures Unique(Keys(symbolsData)) ==> Keys(results) == Keys(symbolsData)
      ensures forall i | 0 <= i < |symbolsData| && LastOfKey(symbolsData, i, |symbolsData|) ::
        HasKey(results, symbolsData[i].0)
        && IsAnalysisOf(symbolsData[i].0, symbolsData[i].1, calculate, config, stamp, Get(results, symbolsData[i].0).value)
    {
      results := [];
      ghost var outs: seq<AnalysisResult> := [];
      var i := 0;
      while i < |symbolsData|
        invariant 0 <= i <= |symbolsData| && Valid()
        invariant Unique(Keys(results))
        invariant forall k :: HasKey(results, k) <==> HasKey(symbolsData[..i], k)
        invariant Unique(Keys(symbolsData)) ==> Keys(results) == Keys(symbolsData[..i])
        invariant |outs| == i
        invariant AllAnalysed(symbolsData, outs, calculate, config, stamp)
        invariant forall j | 0 <= j < i && LastOfKey(symbolsData, j, i) :: Get(results, symbolsData[j].0) == Some(outs[j])
      {
        var r := AnalyzeEntry(symbolsData[i].0, symbolsData[i].1, calculate, now, stamp);
        AllAnalysedSnoc(symbolsData, outs, r, calculate, config, stamp);
        outs := outs + [r];
        LastValuesStep(results, symbolsData, outs, i);
        BatchStep(results, symbolsData, i, r);
        results := Put(results, symbolsData[i].0, r);
        i := i + 1;
      }
      assert symbolsData[..i] == symbolsData;
      BatchOutcomes(results, symbolsData, outs, calculate, config, stamp);
    }

    /** `get_recent_analyses(count)`: Python's `[-count:]` of the cache. */
    function GetRecentAnalyses(count: int): (r: seq<AnalysisResult>)
      reads this
      ensures count > 0 ==>
        |r| == (if count < |recentAnalyses| then count else |recentAnalyses|) && r == recentAnalyses[|recentAnalyses| - |r|..]
      ensures count == 0 ==> r == recentAnalyses
      ensures count < 0 ==> r == recentAnalyses[(if -count < |recentAnalyses| then -count else |recentAnalyses|)..]
    {
      TakeLast(recentAnalyses, count)
    }

    /** `get_statistics`: one pass over the cache counting successes per state. */
    method GetStatistics() returns (s: Statistics)
      ensures s == StatisticsOf(recentAnalyses)
    {
      var h := recentAnalyses;
      if h == [] {
        return NoAnalyses;
      }
      var successes, counts := CountSuccesses(h);
      var total := |h|;
      s := Stats(total, successes, successes as real / total as real, counts, total);
    }

    /** `get_market_regime`, from the classifier's history. */
    method GetMarketRegime() returns (regime: string)
      ensures regime == MC.Regime(classifier.stateHistory)
    {
      regime := classifier.GetMarketRegime();
    }

    /** `get_state_transitions`, from the classifier's history. */
    method GetStateTransitions(lookback: int) returns (ts: seq<MC.Transition>)
      ensures |classifier.stateHistory| < 2 ==> ts == []
      ensures |classifier.stateHistory| >= 2 ==> ts == MC.TransitionsOf(TakeLast(classifier.stateHistory, lookback))
    {
      ts := classifier.GetStateTransitions(lookback);
    }
  }

  /** The loop of `get_statistics`: the number of successes and the count per state. */
  method CountSuccesses(h: seq<AnalysisResult>) returns (successes: nat, counts: seq<(string, int)>)
    ensures successes == |SuccessfulStates(h)| && counts == Counts(SuccessfulStates(h))
  {
    counts := [];
    successes := 0;
    ghost var states: seq<string> := [];
    var i := 0;
    while i < |h|
      invariant 0 <= i <= |h|
      invariant states == SuccessfulStates(h[..i])
      invariant successes == |states| && counts == Counts(states)
    {
      successes, counts, states := CountOne(h, i, successes, counts, states);
      i := i + 1;
    }
    WholePrefix(h);
  }

  /** One step of the loop of `get_statistics`: a successful analysis is counted under its state's name. */
  method CountOne(h: seq<AnalysisResult>, i: nat, successes: nat, counts: seq<(string, int)>, ghost states: seq<string>)
    returns (successes': nat, counts': seq<(string, int)>, ghost states': seq<string>)
    requires i < |h| && states == SuccessfulStates(h[..i])
    requires successes == |states| && counts == Counts(states)
    ensures states' == SuccessfulStates(h[..i + 1])
    ensures successes' == |states'| && counts' == Counts(states')
  {
    if h[i].Succeeded() {
      var name := h[i].State().Value();
      StatisticsStep(h, i, name);
      CountsAppend(states, name);
      counts' := Bump(counts, name);
      successes' := successes + 1;
      states' := states + [name];
    } else {
      StatisticsSkip(h, i);
      successes', counts', states' := successes, counts, states;
    }
  }

  /** A step of the statistics loop over a successful analysis adds its state's name. */
  lemma StatisticsStep(h: seq<AnalysisResult>, i: nat, name: string)
    requires i < |h| && h[i].Succeeded() && name == h[i].State().Value()
    ensures SuccessfulStates(h[..i + 1]) == SuccessfulStates(h[..i]) + [name]
  {
    var p := h[..i + 1];
    assert p[..|p| - 1] == h[..i];
    assert p[|p| - 1] == h[i];
  }

  /** A step of the statistics loop over a failed analysis adds nothing. */
  lemma StatisticsSkip(h: seq<AnalysisResult>, i: nat)
    requires i < |h| && !h[i].Succeeded()
    ensures SuccessfulStates(h[..i + 1]) == SuccessfulStates(h[..i])
  {
    var p := h[..i + 1];
    assert p[..|p| - 1] == h[..i];
    assert p[|p| - 1] == h[i];
  }

  lemma CountsAppend(s: seq<string>, x: string)
    ensures Counts(s + [x]) == Bump(Counts(s), x)
  {
    assert (s + [x])[..|s|] == s;
  }

  /** The loop step of `batch_analyze`. */
  lemma BatchStep(results: seq<(string, AnalysisResult)>, symbolsData: seq<(string, Frame)>, i: nat, r: AnalysisResult)
    requires i < |symbolsData| && Unique(Keys(results))
    requires forall k :: HasKey(results, k) <==> HasKey(symbolsData[..i], k)
    requires Unique(Keys(symbolsData)) ==> Keys(results) == Keys(symbolsData[..i])
    ensures var next := Put(results, symbolsData[i].0, r);
      Unique(Keys(next))
      && (forall k :: HasKey(next, k) <==> HasKey(symbolsData[..i + 1], k))
      && (Unique(Keys(symbolsData)) ==> Keys(next) == Keys(symbolsData[..i + 1]))
  {
    var k0 := symbolsData[i].0;
    PutUnique(results, k0, r);
    forall k
      ensures HasKey(Put(results, k0, r), k) <==> HasKey(symbolsData[..i + 1], k)
    {
      PutGet(results, k0, r, k);
      PrefixHasKey(symbolsData, i, k);
    }
    if Unique(Keys(symbolsData)) {
      BatchKeys(results, symbolsData, i, r);
    }
  }

  /** A key of the first i + 1 pairs is a key of the first i or the i-th key. */
  lemma PrefixHasKey<V>(d: seq<(string, V)>, i: nat, k: string)
    requires i < |d|
    ensures HasKey(d[..i + 1], k) <==> HasKey(d[..i], k) || k == d[i].0
  {
    if HasKey(d[..i + 1], k) && k != d[i].0 {
      var j :| 0 <= j < i + 1 && d[..i + 1][j].0 == k;
      assert j < i && d[..i][j].0 == k;
    }
    if HasKey(d[..i], k) {
      var j :| 0 <= j < i && d[..i][j].0 == k;
      assert d[..i + 1][j].0 == k;
    }
    assert d[..i + 1][i].0 == d[i].0;
  }

  lemma BatchKeys(results: seq<(string, AnalysisResult)>, symbolsData: seq<(string, Frame)>, i: nat, r: AnalysisResult)
    requires i < |symbolsData| && Unique(Keys(symbolsData)) && Keys(results) == Keys(symbolsData[..i])
    ensures Keys(Put(results, symbolsData[i].0, r)) == Keys(symbolsData[..i + 1])
  {
    var k0 := symbolsData[i].0;
    assert !HasKey(results, k0) by {
      forall j | 0 <= j < |results| ensures results[j].0 != k0 {
        assert Keys(results)[j] == Keys(symbolsData)[j] != Keys(symbolsData)[i];
      }
    }
    assert Put(results, k0, r) == results + [(k0, r)];
    KeysSnoc(results, (k0, r));
    KeysPrefixSnoc(symbolsData, i);
  }
}
