/**
 * The macro analyst: the reading of a currency pair into base and quote,
 * the keyword reading of the tools' results into a summary and a verdict,
 * the one-line rendering of each tool result, and the node's pair default
 * and collection of tool results.
 *
 * `str(r)` of a tool result that is not text is the parameter `show`.
 */
module MacroAnalyst {
  import opened Common
  import AlphaVantageCommon

  // ----------------------------------------------------------- the pair

  /** A text holding the separator splits into at least two parts. */
  lemma {:induction false} SplitHasTwo(s: string, sep: char)
    requires sep in s
    ensures |Split(s, sep)| >= 2
    decreases |s|
  {
    if s[0] != sep {
      SplitHasTwo(s[1..], sep);
    }
  }

  /** Base and quote currency: around the first "/", or 3 and 3 letters of a six-letter code, or USD/JPY. */
  function SplitPair(pair: string): (r: (string, string))
    ensures '/' !in pair && |pair| == 6 ==> r.0 + r.1 == pair && |r.0| == 3 && |r.1| == 3
    ensures '/' !in pair && |pair| != 6 ==> r == ("USD", "JPY")
  {
    if '/' in pair then
      SplitHasTwo(pair, '/');
      var parts := Split(pair, '/');
      (parts[0], parts[1])
    else if |pair| == 6 then (pair[..3], pair[3..])
    else ("USD", "JPY")
  }

  /** A pair written base + "/" + quote, with no other slash, reads back as that base and quote. */
  lemma PairRoundTrip(base: string, quote: string)
    requires '/' !in base && '/' !in quote
    ensures SplitPair(base + "/" + quote) == (base, quote)
  {
    var s := base + "/" + quote;
    assert s == base + ['/'] + quote;
    assert s[|base|] == '/';
    SplitAt(base, quote, '/');
    SplitFree(quote, '/');
  }

  /** Anything after a second slash is dropped: "A/B/C" reads as A and B. */
  lemma ExtraSlashDropped(a: string, b: string, rest: string)
    requires '/' !in a && '/' !in b
    ensures SplitPair(a + "/" + b + "/" + rest) == (a, b)
  {
    var s := a + "/" + b + "/" + rest;
    assert s == a + ['/'] + (b + ['/'] + rest);
    assert s[|a|] == '/';
    SplitAt(a, b + ['/'] + rest, '/');
    SplitAt(b, rest, '/');
  }

  /** The pair the node analyses: the ticker when it has a slash or six characters, else USD/JPY. */
  function NodePair(ticker: string): (r: string)
    ensures '/' in ticker || |ticker| == 6 ==> r == ticker
    ensures !('/' in ticker || |ticker| == 6) ==> r == "USD/JPY"
  {
    if '/' in ticker || |ticker| == 6 then ticker else "USD/JPY"
  }

  /** A ticker the node does not recognise is analysed as USD against JPY. */
  lemma NodePairDefault(ticker: string)
    requires !('/' in ticker || |ticker| == 6)
    ensures SplitPair(NodePair(ticker)) == ("USD", "JPY")
  {
    assert "USD" + "/" + "JPY" == "USD/JPY";
    assert '/' !in "USD" && '/' !in "JPY";
    PairRoundTrip("USD", "JPY");
  }

  // ------------------------------------------------- reading the results

  /** `str(r)` of one tool result. */
  function Shown(v: Value, show: Value -> string): (r: string)
    ensures v.Str? ==> r == v.s
  {
    if v.Str? then v.s else show(v)
  }

  function ShownAll(results: seq<Value>, show: Value -> string): (r: seq<string>)
    ensures |r| == |results|
    ensures forall i :: 0 <= i < |results| ==> r[i] == Shown(results[i], show)
  {
    seq(|results|, i requires 0 <= i < |results| => Shown(results[i], show))
  }

  /** `" ".join(str(r) for r in tool_results)`. */
  function ResultText(results: seq<Value>, show: Value -> string): string
  {
    Join(ShownAll(results, show), " ")
  }

  const PositiveWords: seq<string> := ["strong", "growth", "improving", "positive", "up", "higher"]
  const NegativeWords: seq<string> := ["weak", "declining", "negative", "down", "lower", "risk"]

  /** How many of the words occur in the text: each word counts once, however often it occurs. */
  function WordsPresent(text: string, words: seq<string>): (r: nat)
    ensures r <= |words|
    ensures r == 0 <==> !ContainsAny(text, words)
    ensures r == |words| <==> forall i :: 0 <= i < |words| ==> Contains(text, words[i])
    decreases |words|
  {
    if |words| == 0 then 0
    else
      var front := words[..|words| - 1];
      var n := WordsPresent(text, front);
      assert forall i :: 0 <= i < |front| ==> front[i] == words[i];
      n + (if Contains(text, words[|words| - 1]) then 1 else 0)
  }

  /** The verdict: cautiously bullish on more positive words, cautiously bearish on more negative ones, neutral on a tie. */
  function MacroVerdict(pos: nat, neg: nat): (r: string)
    ensures r == "谨慎看涨" <==> pos > neg
    ensures r == "谨慎看跌" <==> neg > pos
    ensures r == "中性" <==> pos == neg
  {
    if pos > neg then "谨慎看涨" else if neg > pos then "谨慎看跌" else "中性"
  }

  /** The fields of the summary that `analyze_tool_results` fills; `None` where it leaves a key unset. */
  datatype MacroSummary = MacroSummary(
    executiveSummary: string,
    rateDifferential: string,
    policyStance: string,
    policyPath: string,
    inflationLevel: Option<string>,
    upcomingData: Option<string>,
    overallVerdict: string)

  /** The executive summary line naming the number of sources and the verdict. */
  function ExecutiveSummary(sources: nat, verdict: string): (r: string)
  {
    "基于" + NatToString(sources) + "个数据源的分析，整体评估为" + verdict
  }

  /** `analyze_tool_results`, on the lower-cased joined text of the results. */
  function AnalyzeToolResults(results: seq<Value>, show: Value -> string): (r: MacroSummary)
    ensures var text := Lower(ResultText(results, show));
      (r.rateDifferential == "存在利差机会" <==> Contains(text, "rate") || Contains(text, "interest"))
      && (r.inflationLevel.Some? <==> Contains(text, "inflation"))
      && (r.upcomingData.Some? <==> Contains(text, "calendar") || Contains(text, "event"))
      && r.overallVerdict == MacroVerdict(WordsPresent(text, PositiveWords), WordsPresent(text, NegativeWords))
      && r.executiveSummary == ExecutiveSummary(|results|, r.overallVerdict)
  {
    var text := Lower(ResultText(results, show));
    var verdict := MacroVerdict(WordsPresent(text, PositiveWords), WordsPresent(text, NegativeWords));
    MacroSummary(
      ExecutiveSummary(|results|, verdict),
      if Contains(text, "rate") || Contains(text, "interest") then "存在利差机会" else "待计算",
      "待评估",
      "待分析",
      if Contains(text, "inflation") then Some("通胀数据已获取") else None,
      if Contains(text, "calendar") || Contains(text, "event") then Some("有近期经济事件") else None,
      verdict)
  }

  /** The executive summary starts with the number of results and ends with the verdict. */
  lemma SummaryNamesCountAndVerdict(results: seq<Value>, show: Value -> string)
    ensures var r := AnalyzeToolResults(results, show);
      var head := "基于" + NatToString(|results|);
      StartsWith(r.executiveSummary, head)
      && r.executiveSummary[|r.executiveSummary| - |r.overallVerdict|..] == r.overallVerdict
  {
    var r := AnalyzeToolResults(results, show);
    var head := "基于" + NatToString(|results|);
    var mid := "个数据源的分析，整体评估为";
    assert r.executiveSummary == head + mid + r.overallVerdict;
    assert (head + mid + r.overallVerdict)[..|head|] == head;
  }

  /** Text results are read as they are: a result reading only "up" has one positive word and no negative one, so it is cautiously bullish. */
  lemma UpIsBullish()
    ensures AnalyzeToolResults([Str("up")], v => "").overallVerdict == "谨慎看涨"
  {
    var text := Lower(ResultText([Str("up")], v => ""));
    assert ShownAll([Str("up")], v => "") == ["up"];
    assert text == "up";
    assert StartsWith(text, "up");
    forall i | 0 <= i < |NegativeWords| ensures !Contains(text, NegativeWords[i]) {
      var w := NegativeWords[i];
      assert w[0] in "wdnlr";
      LacksFirst(text, w);
    }
    assert WordsPresent(text, NegativeWords) == 0;
    assert Contains(text, PositiveWords[4]);
  }

  /** Keywords are matched inside words: "support" shows the positive word "up". */
  lemma KeywordInsideWord()
    ensures Contains("support", PositiveWords[4])
  {
    assert "support"[1..3] == "up";
    ContainsAt("support", "up", 1);
  }

  // ----------------------------------------------- rendering the results

  const Ellipsis := "..."

  /** `format_tool_result`: a text line cut to 200 characters with an ellipsis, or the type name of anything else. */
  function FormatToolResult(v: Value): (r: string)
    ensures StartsWith(r, "- ")
    ensures v.Str? && |v.s| <= 200 ==> r == "- " + v.s
    ensures v.Str? && |v.s| > 200 ==> |r| == 205 && r[2..202] == v.s[..200] && r[202..] == Ellipsis
    ensures !v.Str? ==> r == "- 数据结果: " + AlphaVantageCommon.TypeName(v)
  {
    if v.Str? then
      if |v.s| > 200 then "- " + v.s[..200] + Ellipsis else "- " + v.s
    else "- 数据结果: " + AlphaVantageCommon.TypeName(v)
  }

  /** Every rendered text result is at most 205 characters long and starts with the start of the text. */
  lemma FormattedBounded(v: Value)
    requires v.Str?
    ensures |FormatToolResult(v)| <= 205
    ensures var r := FormatToolResult(v); var k := if |v.s| > 200 then 200 else |v.s|;
      r[2..2 + k] == v.s[..k]
  {
  }

  function FormattedAll(results: seq<Value>): (r: seq<string>)
    ensures |r| == |results|
    ensures forall i :: 0 <= i < |results| ==> r[i] == FormatToolResult(results[i])
  {
    seq(|results|, i requires 0 <= i < |results| => FormatToolResult(results[i]))
  }

  /** The data section of the report: one rendered line per tool result. */
  function DataSection(results: seq<Value>): string
  {
    Join(FormattedAll(results), "\n")
  }

  // -------------------------------------------------------------- the node

  /** What running one requested tool gave: its result, or the message of what it raised. */
  datatype ToolOutcome = Returned(value: Value) | Raised(msg: string)

  /** The collected result of one tool call; a failure becomes a text naming the tool. */
  function Collected(name: string, outcome: ToolOutcome): (r: Value)
    ensures outcome.Returned? ==> r == outcome.value
    ensures outcome.Raised? ==> r.Str? && StartsWith(r.s, "Error executing " + name)
  {
    match outcome
    case Returned(v) => v
    case Raised(msg) =>
      var head := "Error executing " + name;
      assert (head + ": " + msg)[..|head|] == head;
      Str(head + ": " + msg)
  }

  /** The node's loop over the tool calls: one result per call, in order. */
  function ToolResults(calls: seq<(string, ToolOutcome)>): (r: seq<Value>)
    ensures |r| == |calls|
    ensures forall i :: 0 <= i < |calls| ==> r[i] == Collected(calls[i].0, calls[i].1)
  {
    seq(|calls|, i requires 0 <= i < |calls| => Collected(calls[i].0, calls[i].1))
  }

  /**
   * The node's report: the model's own reply when it called no tool, and
   * otherwise the structured report over the collected results, given here
   * by its summary and data section.
   */
  datatype MacroReport = Direct(content: string) | Structured(base: string, quote: string, summary: MacroSummary, data: string)

  function NodeReport(ticker: string, content: string, calls: seq<(string, ToolOutcome)>, show: Value -> string): (r: MacroReport)
    ensures |calls| == 0 <==> r == Direct(content)
    ensures r.Structured? ==> ((r.base, r.quote) == SplitPair(NodePair(ticker))
                               && r.summary.executiveSummary == ExecutiveSummary(|calls|, r.summary.overallVerdict))
    ensures r.Structured? ==>
      var text := Lower(ResultText(ToolResults(calls), show));
      r.summary.overallVerdict == MacroVerdict(WordsPresent(text, PositiveWords), WordsPresent(text, NegativeWords))
      && r.data == DataSection(ToolResults(calls))
  {
    if |calls| == 0 then Direct(content)
    else
      var results := ToolResults(calls);
      var pair := SplitPair(NodePair(ticker));
      Structured(pair.0, pair.1, AnalyzeToolResults(results, show), DataSection(results))
  }
}
