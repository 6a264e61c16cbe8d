/**
 * The trading-graph object: the recommended analyst sets per strategy, the
 * preparation of the initial state before a run, and the summary of the
 * analysts' reports. The graph itself, the language models, the memories and
 * the state log file are outside the model: the initial state, the run of the
 * graph and the signal processing are parameters.
 */
module TradingGraph {
  import opened Common

  type Dict = seq<(string, Value)>

  // ------------------------------------------------------------- analysts

  /** `get_recommended_analysts`: the table entry of the strategy, the quick set otherwise. */
  function RecommendedAnalysts(strategy: string): (r: seq<string>)
    ensures strategy == "forex" ==> r == ["news", "technical", "quantitative"]
    ensures strategy == "equity" ==> r == ["news", "fundamentals", "technical", "quantitative"]
    ensures strategy == "crypto" ==> r == ["news", "social", "technical", "quantitative"]
    ensures strategy == "full" ==> r == ["market", "social", "news", "technical", "quantitative"]
    ensures !(strategy in ["forex", "equity", "crypto", "full"]) ==> r == ["technical", "quantitative"]
  {
    if strategy == "forex" then ["news", "technical", "quantitative"]
    else if strategy == "equity" then ["news", "fundamentals", "technical", "quantitative"]
    else if strategy == "crypto" then ["news", "social", "technical", "quantitative"]
    else if strategy == "quick" then ["technical", "quantitative"]
    else if strategy == "full" then ["market", "social", "news", "technical", "quantitative"]
    else ["technical", "quantitative"]
  }

  /** Every recommendation ends with the technical and the quantitative analyst. */
  lemma RecommendationsEndTechnical(strategy: string)
    ensures var r := RecommendedAnalysts(strategy);
      |r| >= 2 && r[|r| - 2..] == ["technical", "quantitative"]
  {
    var r := RecommendedAnalysts(strategy);
    assert r[|r| - 2..] == [r[|r| - 2], r[|r| - 1]];
  }

  /** The news analyst is recommended exactly for the forex, equity, crypto and full strategies. */
  lemma NewsRecommended(strategy: string)
    ensures "news" in RecommendedAnalysts(strategy) <==> strategy in ["forex", "equity", "crypto", "full"]
  {
    var r := RecommendedAnalysts(strategy);
    if !(strategy in ["forex", "equity", "crypto", "full"]) {
      assert r == ["technical", "quantitative"];
      assert "technical" != "news" && "quantitative" != "news";
    }
  }

  // ---------------------------------------------------------- initial state

  const AddedReports: seq<string> := ["technical_report", "quantitative_report"]

  /** Adds an empty report under each of `keys` missing from the state, in order. */
  function WithReports(s: Dict, keys: seq<string>): (r: Dict)
    decreases |keys|
  {
    if keys == [] then s
    else
      var prev := WithReports(s, keys[..|keys| - 1]);
      var k := keys[|keys| - 1];
      if HasKey(prev, k) then prev else prev + [(k, Str(""))]
  }

  /** Adding reports keeps every entry, supplies the missing keys with "" and changes nothing else. */
  lemma {:induction false} WithReportsKeeps(s: Dict, keys: seq<string>, k: string)
    ensures HasKey(s, k) ==> Get(WithReports(s, keys), k) == Get(s, k)
    ensures !HasKey(s, k) && k in keys ==> Get(WithReports(s, keys), k) == Some(Str(""))
    ensures !HasKey(s, k) && !(k in keys) ==> !HasKey(WithReports(s, keys), k)
    ensures |WithReports(s, keys)| >= |s| && WithReports(s, keys)[..|s|] == s
    decreases |keys|
  {
    if keys != [] {
      var init := keys[..|keys| - 1];
      var prev := WithReports(s, init);
      var last := keys[|keys| - 1];
      WithReportsKeeps(s, init, k);
      assert k in keys <==> k in init || k == last;
      if !HasKey(prev, last) {
        GetConcat(prev, [(last, Str(""))], k);
        HasKeyConcat(prev, [(last, Str(""))], k);
        assert (prev + [(last, Str(""))])[..|s|] == prev[..|s|];
        if k == last { assert Get([(last, Str(""))], k) == Some(Str("")); }
      }
    }
  }

  // ---------------------------------------------------------------- summary

  const ReportFields: seq<(string, string)> := [
    ("market_report", "市场分析"), ("sentiment_report", "情绪分析"), ("news_report", "新闻分析"),
    ("technical_report", "技术分析"), ("quantitative_report", "量化分析")]

  const ReportNames: seq<string> := ["市场分析", "情绪分析", "新闻分析", "技术分析", "量化分析"]

  const NoData := "无数据"

  const NoState := "No analysis state available"

  /**
   * One summary entry: "无数据" for a missing or falsy report, the report
   * itself up to 200 characters, its first 200 characters and "..."
   * beyond. `len` of a number and slicing a long list or dictionary raise.
   */
  function Entry(report: Option<Value>): (r: Result<Value>)
    ensures report.None? || !Truthy(report.value) ==> r == Ok(Str(NoData))
    ensures report.Some? && report.value.Str? && 0 < |report.value.s| <= 200 ==> r == Ok(report.value)
    ensures report.Some? && report.value.Str? && |report.value.s| > 200 ==>
      r.Ok? && r.value.Str? && |r.value.s| == 203 && r.value.s == report.value.s[..200] + "..."
  {
    if report.None? || !Truthy(report.value) then Ok(Str(NoData))
    else
      match report.value
      case Str(s) => if |s| > 200 then Ok(Str(s[..200] + "...")) else Ok(Str(s))
      case List(xs) => if |xs| > 200 then Err("TypeError: can only concatenate list (not \"str\") to list") else Ok(List(xs))
      case Dict(es) => if |es| > 200 then Err("TypeError: unhashable type: 'slice'") else Ok(Dict(es))
      case _ => Err("TypeError: object has no len()")
  }

  /** The summary entries of `fields`, in order, or the first error. */
  function SummaryOver(state: Dict, fields: seq<(string, string)>): (r: Result<Dict>)
    ensures r.Ok? ==> (|r.value| == |fields|
      && forall i :: 0 <= i < |fields| ==>
           r.value[i].0 == fields[i].1 && Entry(Get(state, fields[i].0)) == Ok(r.value[i].1))
    ensures r.Err? <==> exists i :: 0 <= i < |fields| && Entry(Get(state, fields[i].0)).Err?
    decreases |fields|
  {
    if fields == [] then Ok([])
    else
      var init := fields[..|fields| - 1];
      var last := fields[|fields| - 1];
      assert forall i :: 0 <= i < |init| ==> init[i] == fields[i];
      match SummaryOver(state, init)
      case Err(m) => Err(m)
      case Ok(d) =>
        match Entry(Get(state, last.0))
        case Err(m) => Err(m)
        case Ok(v) => Ok(d + [(last.1, v)])
  }

  /** The first failing report decides the error of every longer list of fields. */
  lemma {:induction false} SummaryErrStays(state: Dict, fields: seq<(string, string)>, j: nat)
    requires j <= |fields| && SummaryOver(state, fields[..j]).Err?
    ensures SummaryOver(state, fields) == SummaryOver(state, fields[..j])
    decreases |fields| - j
  {
    if j < |fields| {
      var p := fields[..j + 1];
      assert p[..|p| - 1] == fields[..j];
      assert SummaryOver(state, p) == SummaryOver(state, fields[..j]);
      SummaryErrStays(state, fields, j + 1);
    } else {
      assert fields[..j] == fields;
    }
  }

  /** `get_analysis_summary` of a state. */
  function SummaryOf(state: Option<Dict>): (r: Result<Dict>)
  {
    if state.None? then Ok([("error", Str(NoState))]) else SummaryOver(state.value, ReportFields)
  }

  /** A summary of a state always has exactly the five report names as its keys, in order. */
  lemma SummaryKeys(state: Dict)
    requires SummaryOf(Some(state)).Ok?
    ensures Keys(SummaryOf(Some(state)).value) == ReportNames
  {
    var d := SummaryOf(Some(state)).value;
    assert forall i :: 0 <= i < 5 ==> d[i].0 == ReportFields[i].1 == ReportNames[i];
  }

  /** A state of string reports always has a summary, and a report of at most 200 characters appears as it is. */
  lemma StringReportsSummarize(state: Dict, i: nat)
    requires forall k :: 0 <= k < 5 ==> Get(state, ReportFields[k].0).None? || Get(state, ReportFields[k].0).value.Str?
    requires i < 5
    ensures SummaryOf(Some(state)).Ok?
    ensures var v := Get(state, ReportFields[i].0);
      v.Some? && 0 < |v.value.s| <= 200 ==> SummaryOf(Some(state)).value[i] == (ReportNames[i], v.value)
  {
    forall k | 0 <= k < 5
      ensures Entry(Get(state, ReportFields[k].0)).Ok?
    {
    }
    assert ReportFields[i].1 == ReportNames[i];
  }

  // -------------------------------------------------------------- state log

  /** The report fields `_log_state` copies: those present in the state, in field order, with their values. */
  function PresentReports(state: Dict, fields: seq<(string, string)>): (r: Dict)
    ensures forall e :: e in r ==> Get(state, e.0) == Some(e.1) && exists i :: 0 <= i < |fields| && fields[i].0 == e.0
    ensures forall i :: 0 <= i < |fields| && HasKey(state, fields[i].0) ==> HasKey(r, fields[i].0)
  {
    if |fields| == 0 then []
    else
      var front := PresentReports(state, fields[..|fields| - 1]);
      var k := fields[|fields| - 1].0;
      var r := front + (if HasKey(state, k) then [(k, Get(state, k).value)] else []);
      assert forall e :: e in front ==> exists i :: 0 <= i < |fields| && fields[i].0 == e.0 by {
        forall e | e in front ensures exists i :: 0 <= i < |fields| && fields[i].0 == e.0 {
          var i :| 0 <= i < |fields| - 1 && fields[..|fields| - 1][i].0 == e.0;
          assert fields[i].0 == e.0;
        }
      }
      forall i | 0 <= i < |fields| && HasKey(state, fields[i].0) ensures HasKey(r, fields[i].0) {
        HasKeyConcat(front, if HasKey(state, k) then [(k, Get(state, k).value)] else [], fields[i].0);
        if i < |fields| - 1 {
          assert fields[..|fields| - 1][i] == fields[i];
        } else {
          assert r[|r| - 1].0 == k;
        }
      }
      r
  }

  /** The debate-state fields `_log_state` copies, with their defaults. */
  const InvestDebateFields: seq<(string, Value)> := [
    ("bull_history", List([])), ("bear_history", List([])), ("history", List([])),
    ("current_response", Str("")), ("judge_decision", Str(""))]

  const RiskDebateFields: seq<(string, Value)> := [
    ("risky_history", List([])), ("safe_history", List([])), ("neutral_history", List([])),
    ("history", List([])), ("judge_decision", Str(""))]

  const NoGet := "AttributeError: object has no attribute 'get'"

  /**
   * `final_state.get(key, {}).get(field, default)` for each field: a missing
   * sub-state reads as `{}`; one that is not a dictionary has no `get`.
   */
  function DebateCopy(state: Dict, key: string, fields: seq<(string, Value)>): (r: Result<Value>)
    ensures r.Err? <==> !GetOr(state, key, Dict([])).Dict?
    ensures r.Ok? ==>
      r.value.Dict? && |r.value.entries| == |fields|
      && forall i :: 0 <= i < |fields| ==>
           r.value.entries[i] == (fields[i].0, GetOr(GetOr(state, key, Dict([])).entries, fields[i].0, fields[i].1))
  {
    match GetOr(state, key, Dict([]))
    case Dict(es) => Ok(Dict(seq(|fields|, i requires 0 <= i < |fields| => (fields[i].0, GetOr(es, fields[i].0, fields[i].1)))))
    case _ => Err(NoGet)
  }

  /** The head of the logged dictionary: the company and the trade date. */
  function LogHead(state: Dict): Dict
    requires HasKey(state, "company_of_interest") && HasKey(state, "trade_date")
  {
    [("company_of_interest", Get(state, "company_of_interest").value), ("trade_date", Get(state, "trade_date").value)]
  }

  /** The tail of the logged dictionary: the debate states, the plans and the final decision. */
  function LogTail(state: Dict, invest: Value, risk: Value): Dict
  {
    [("investment_debate_state", invest),
     ("trader_investment_decision", GetOr(state, "trader_investment_plan", Str(""))),
     ("risk_debate_state", risk),
     ("investment_plan", GetOr(state, "investment_plan", Str(""))),
     ("final_trade_decision", GetOr(state, "final_trade_decision", Str("")))]
  }

  /**
   * The dictionary `_log_state` stores for a final state: the company and
   * the trade date (a KeyError when missing), the reports present, both
   * debate states (an AttributeError when one is not a dictionary), the
   * trader's plan, the investment plan and the final decision.
   */
  function LogEntry(state: Dict): (r: Result<Dict>)
    ensures r.Err? <==>
      !HasKey(state, "company_of_interest") || !HasKey(state, "trade_date")
      || !GetOr(state, "investment_debate_state", Dict([])).Dict? || !GetOr(state, "risk_debate_state", Dict([])).Dict?
    ensures !HasKey(state, "company_of_interest") ==> r == Err("KeyError: 'company_of_interest'")
    ensures HasKey(state, "company_of_interest") && !HasKey(state, "trade_date") ==> r == Err("KeyError: 'trade_date'")
  {
    if !HasKey(state, "company_of_interest") then Err("KeyError: 'company_of_interest'")
    else if !HasKey(state, "trade_date") then Err("KeyError: 'trade_date'")
    else
      match DebateCopy(state, "investment_debate_state", InvestDebateFields)
      case Err(e) => Err(e)
      case Ok(invest) =>
        match DebateCopy(state, "risk_debate_state", RiskDebateFields)
        case Err(e) => Err(e)
        case Ok(risk) => Ok(LogHead(state) + PresentReports(state, ReportFields) + LogTail(state, invest, risk))
  }

  /** A logged entry is its head, the reports present and its tail. */
  lemma LogEntryParts(state: Dict)
    requires LogEntry(state).Ok?
    ensures HasKey(state, "company_of_interest") && HasKey(state, "trade_date")
    ensures DebateCopy(state, "investment_debate_state", InvestDebateFields).Ok?
    ensures DebateCopy(state, "risk_debate_state", RiskDebateFields).Ok?
    ensures LogEntry(state).value
      == LogHead(state) + PresentReports(state, ReportFields)
         + LogTail(state, DebateCopy(state, "investment_debate_state", InvestDebateFields).value,
                   DebateCopy(state, "risk_debate_state", RiskDebateFields).value)
  {
  }

  /** Two leading entries are found first, the last entry stays last, and the middle entries stay in. */
  lemma {:induction false} JoinedEntries(head: Dict, middle: Dict, tail: Dict)
    requires |head| == 2 && |tail| > 0 && head[0].0 != head[1].0
    ensures Get(head + middle + tail, head[0].0) == Some(head[0].1)
    ensures Get(head + middle + tail, head[1].0) == Some(head[1].1)
    ensures (head + middle + tail)[|head + middle + tail| - 1] == tail[|tail| - 1]
    ensures forall x :: x in middle ==> x in head + middle + tail
  {
    var e := head + middle + tail;
    assert e[0] == head[0] && e[1..][0] == head[1];
  }

  /**
   * A logged state keeps the company, the trade date, every report present
   * and the final decision ("" when missing) of the final state.
   */
  lemma LogEntryFields(state: Dict)
    requires LogEntry(state).Ok?
    ensures var e := LogEntry(state).value;
      Get(e, "company_of_interest") == Get(state, "company_of_interest")
      && Get(e, "trade_date") == Get(state, "trade_date")
      && e[|e| - 1] == ("final_trade_decision", GetOr(state, "final_trade_decision", Str("")))
      && forall i :: 0 <= i < |ReportFields| && HasKey(state, ReportFields[i].0) ==>
           (ReportFields[i].0, Get(state, ReportFields[i].0).value) in e
  {
    LogEntryParts(state);
    var reports := PresentReports(state, ReportFields);
    var tail := LogTail(state, DebateCopy(state, "investment_debate_state", InvestDebateFields).value,
                        DebateCopy(state, "risk_debate_state", RiskDebateFields).value);
    JoinedEntries(LogHead(state), reports, tail);
    forall i | 0 <= i < |ReportFields| && HasKey(state, ReportFields[i].0)
      ensures (ReportFields[i].0, Get(state, ReportFields[i].0).value) in reports
    {
      var k := ReportFields[i].0;
      assert HasKey(reports, k);
      assert (k, Get(reports, k).value) in reports;
    }
  }

  // ------------------------------------------------------------------ graph

  /** The graph's run state: the ticker and the final state of the last run. */
  class Graph {
    var ticker: Option<string>
    var currState: Option<Dict>
    /** `log_states_dict`: the logged state of each trade date. */
    var logStates: seq<(string, Value)>

    /** A new graph has run nothing. */
    constructor ()
      ensures ticker.None? && currState.None? && logStates == []
    {
      ticker := None;
      currState := None;
      logStates := [];
    }

    /** The loop of `propagate` adding the two report keys. */
    static method AddReports(s: Dict) returns (r: Dict)
      ensures r == WithReports(s, AddedReports)
    {
      r := s;
      var i := 0;
      while i < |AddedReports|
        invariant 0 <= i <= |AddedReports|
        invariant r == WithReports(s, AddedReports[..i])
      {
        var k := AddedReports[i];
        assert AddedReports[..i + 1][..i] == AddedReports[..i];
        if !HasKey(r, k) {
          r := r + [(k, Str(""))];
        }
        i := i + 1;
      }
      assert AddedReports[..i] == AddedReports;
    }

    /**
     * `propagate`: prepares the initial state, runs the graph, keeps the
     * final state, logs it under the trade date and processes its final trade
     * decision. `initial`, `run` and `processSignal` stand for the propagator,
     * the compiled graph and the signal processor; the log file is left out.
     */
    method Propagate(company: string, tradeDate: string, initial: (string, string) -> Dict, run: Dict -> Dict,
                     processSignal: Value -> string)
      returns (r: Result<(Dict, string)>)
      modifies this
      ensures ticker == Some(company)
      ensures currState == Some(run(WithReports(initial(company, tradeDate), AddedReports)))
      ensures var fin := run(WithReports(initial(company, tradeDate), AddedReports));
        match LogEntry(fin)
        case Err(e) => r == Err(e) && logStates == old(logStates)
        case Ok(entry) =>
          logStates == Put(old(logStates), tradeDate, Dict(entry))
          && match Get(fin, "final_trade_decision")
             case None => r == Err("KeyError: 'final_trade_decision'")
             case Some(d) => r == Ok((fin, processSignal(d)))
    {
      ticker := Some(company);
      var init := AddReports(initial(company, tradeDate));
      var fin := run(init);
      currState := Some(fin);
      var entry := LogEntry(fin);
      if entry.Err? {
        return Err(entry.msg);
      }
      logStates := Put(logStates, tradeDate, Dict(entry.value));
      match Get(fin, "final_trade_decision")
      case None => r := Err("KeyError: 'final_trade_decision'");
      case Some(d) => r := Ok((fin, processSignal(d)));
    }

    /** `get_analysis_summary`: the given state, else the last run's; the loop over the five reports. */
    method GetAnalysisSummary(state: Option<Dict>) returns (r: Result<Dict>)
      ensures r == SummaryOf(if state.Some? then state else currState)
    {
      var s := if state.Some? then state else currState;
      if s.None? {
        return Ok([("error", Str(NoState))]);
      }
      var summary: Dict := [];
      var i := 0;
      while i < |ReportFields|
        invariant 0 <= i <= |ReportFields|
        invariant SummaryOver(s.value, ReportFields[..i]) == Ok(summary)
      {
        var (field, name) := ReportFields[i];
        assert ReportFields[..i + 1][..i] == ReportFields[..i];
        var e := Entry(Get(s.value, field));
        if e.Err? {
          SummaryErrStays(s.value, ReportFields, i + 1);
          return Err(e.msg);
        }
        summary := summary + [(name, e.value)];
        i := i + 1;
      }
      assert ReportFields[..i] == ReportFields;
      r := Ok(summary);
    }
  }
}
