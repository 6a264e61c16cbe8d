/**
 * The routing conditions of the trading graph: whether an analyst goes on
 * to its tools, whose turn it is in the investment debate and in the risk
 * discussion, and when each discussion hands over to its judge.
 */
module ConditionalLogic {
  import opened Common

  // --------------------------------------------------------------- messages

  /** A tool call; its `name` entry may be missing. */
  datatype ToolCall = ToolCall(name: Option<string>)

  /** A message, reduced to the tool calls it requests. */
  datatype Message = Message(toolCalls: seq<ToolCall>)

  /** The analysts whose loop goes through a tool node. */
  datatype Analyst = Market | Social | News | Fundamentals | Macroeconomic | Technical | Quantitative
  {
    /** The suffix of the tool node, `tools_<tag>`. */
    function Tag(): string
    {
      match this
      case Market => "market"
      case Social => "social"
      case News => "news"
      case Fundamentals => "fundamentals"
      case Macroeconomic => "macroeconomic"
      case Technical => "technical"
      case Quantitative => "quantitative"
    }

    /** The suffix of the clearing node, `Msg Clear <Title>`. */
    function Title(): string
    {
      match this
      case Market => "Market"
      case Social => "Social"
      case News => "News"
      case Fundamentals => "Fundamentals"
      case Macroeconomic => "Macroeconomic"
      case Technical => "Technical"
      case Quantitative => "Quantitative"
    }
  }

  /** `messages[-1]` of an empty list. */
  const NoMessage := "IndexError: list index out of range"

  function ToolsNode(a: Analyst): string { "tools_" + a.Tag() }

  function ClearNode(a: Analyst): string { "Msg Clear " + a.Title() }

  /**
   * `should_continue_<analyst>`: to the tools while the last message asks
   * for tool calls, to the clearing node otherwise.
   */
  function ShouldContinue(a: Analyst, messages: seq<Message>): (r: Result<string>)
    ensures r.Err? <==> messages == []
    ensures r.Err? ==> r.msg == NoMessage
    ensures r.Ok? ==> (r.value == ToolsNode(a) <==> |messages[|messages| - 1].toolCalls| > 0)
    ensures r.Ok? ==> (r.value == ClearNode(a) <==> |messages[|messages| - 1].toolCalls| == 0)
  {
    if messages == [] then Err(NoMessage)
    else
      NodesDistinct(a);
      if |messages[|messages| - 1].toolCalls| > 0 then Ok(ToolsNode(a)) else Ok(ClearNode(a))
  }

  /** A tool node is never a clearing node. */
  lemma NodesDistinct(a: Analyst)
    ensures ToolsNode(a) != ClearNode(a)
  {
    assert ToolsNode(a)[0] == 't' && ClearNode(a)[0] == 'M';
  }

  /** Distinct analysts loop through distinct tool nodes. */
  lemma ToolNodesDistinct(a: Analyst, b: Analyst)
    requires a != b
    ensures ToolsNode(a) != ToolsNode(b)
  {
    var ta, tb := a.Tag(), b.Tag();
    assert ToolsNode(a)[6..] == ta && ToolsNode(b)[6..] == tb;
    assert |ta| != |tb| || ta[0] != tb[0];
  }

  const MacroTools: seq<string> := ["get_fred_data", "get_ecb_data", "get_macro_dashboard"]

  /** The scan over the tool calls: it returns the tool node on a macro tool and after the loop alike. */
  function MacroScan(calls: seq<ToolCall>): (r: string)
  {
    if calls == [] then "tools_macroeconomic"
    else if calls[0].name.Some? && calls[0].name.value in MacroTools then "tools_macroeconomic"
    else MacroScan(calls[1..])
  }

  /** `should_continue_macroeconomic`, with the scan over the tool names. */
  function ShouldContinueMacro(messages: seq<Message>): (r: Result<string>)
  {
    if messages == [] then Err(NoMessage)
    else if |messages[|messages| - 1].toolCalls| > 0 then Ok(MacroScan(messages[|messages| - 1].toolCalls))
    else Ok("Msg Clear Macroeconomic")
  }

  /** Every scan ends at the macroeconomic tool node, whatever the tool names. */
  lemma {:induction false} MacroScanConstant(calls: seq<ToolCall>)
    ensures MacroScan(calls) == ToolsNode(Macroeconomic)
  {
    if calls != [] && !(calls[0].name.Some? && calls[0].name.value in MacroTools) {
      MacroScanConstant(calls[1..]);
    }
  }

  /** The macroeconomic router routes as every other analyst: the tool names play no part. */
  lemma MacroIgnoresToolNames(messages: seq<Message>)
    ensures ShouldContinueMacro(messages) == ShouldContinue(Macroeconomic, messages)
  {
    assert ClearNode(Macroeconomic) == "Msg Clear Macroeconomic";
    if messages != [] && |messages[|messages| - 1].toolCalls| > 0 {
      MacroScanConstant(messages[|messages| - 1].toolCalls);
    }
  }

  // ---------------------------------------------------------------- debates

  /** `ConditionalLogic(max_debate_rounds, max_risk_discuss_rounds)`. */
  datatype Logic = Logic(maxDebateRounds: int, maxRiskDiscussRounds: int)

  /** The constructor's defaults: one round each. */
  function DefaultLogic(): (l: Logic)
    ensures l.maxDebateRounds == 1 && l.maxRiskDiscussRounds == 1
  {
    Logic(1, 1)
  }

  /** The parts of `investment_debate_state` and `risk_debate_state` the routers read. */
  datatype DebateState = DebateState(count: int, currentResponse: string)
  datatype RiskState = RiskState(count: int, latestSpeaker: string)

  /** `should_continue_debate`. */
  function ShouldContinueDebate(l: Logic, s: DebateState): (r: string)
    ensures r == "Research Manager" <==> s.count >= 2 * l.maxDebateRounds
    ensures s.count < 2 * l.maxDebateRounds ==>
      (r == "Bear Researcher" <==> StartsWith(s.currentResponse, "Bull"))
      && (r == "Bull Researcher" <==> !StartsWith(s.currentResponse, "Bull"))
  {
    if s.count >= 2 * l.maxDebateRounds then "Research Manager"
    else if StartsWith(s.currentResponse, "Bull") then "Bear Researcher"
    else "Bull Researcher"
  }

  /** `should_continue_risk_analysis`. */
  function ShouldContinueRisk(l: Logic, s: RiskState): (r: string)
    ensures r == "Risk Judge" <==> s.count >= 3 * l.maxRiskDiscussRounds
    ensures s.count < 3 * l.maxRiskDiscussRounds && StartsWith(s.latestSpeaker, "Risky") ==> r == "Safe Analyst"
    ensures (s.count < 3 * l.maxRiskDiscussRounds && !StartsWith(s.latestSpeaker, "Risky")
             && StartsWith(s.latestSpeaker, "Safe")) ==> r == "Neutral Analyst"
    ensures (s.count < 3 * l.maxRiskDiscussRounds && !StartsWith(s.latestSpeaker, "Risky")
             && !StartsWith(s.latestSpeaker, "Safe")) ==> r == "Risky Analyst"
  {
    if s.count >= 3 * l.maxRiskDiscussRounds then "Risk Judge"
    else if StartsWith(s.latestSpeaker, "Risky") then "Safe Analyst"
    else if StartsWith(s.latestSpeaker, "Safe") then "Neutral Analyst"
    else "Risky Analyst"
  }

  /** The speaker a researcher or risk analyst node records: the first word of its name. */
  function SpeakerOf(node: string): string
  {
    if node == "Bull Researcher" then "Bull"
    else if node == "Bear Researcher" then "Bear"
    else if node == "Risky Analyst" then "Risky"
    else if node == "Safe Analyst" then "Safe"
    else if node == "Neutral Analyst" then "Neutral"
    else node
  }

  /**
   * Below the limit the debate alternates: the researcher chosen next hands
   * back to the other one.
   */
  lemma DebateAlternates(l: Logic, s: DebateState, t: DebateState)
    requires s.count < 2 * l.maxDebateRounds && t.count < 2 * l.maxDebateRounds
    requires StartsWith(t.currentResponse, SpeakerOf(ShouldContinueDebate(l, s)))
    ensures ShouldContinueDebate(l, t) != ShouldContinueDebate(l, s)
  {
    var n := ShouldContinueDebate(l, s);
    if n == "Bear Researcher" {
      assert t.currentResponse[..4] == "Bear";
      assert !StartsWith(t.currentResponse, "Bull") by {
        assert t.currentResponse[..4][1] == 'e';
      }
    } else {
      assert t.currentResponse[..4] == "Bull";
    }
  }

  /** The risk speaker a node records leads to the next node of the rotation. */
  function NextRisk(l: Logic, node: string, count: int): string
  {
    ShouldContinueRisk(l, RiskState(count, SpeakerOf(node)))
  }

  /**
   * Below the limit the risk discussion is a three-cycle: from any speaker,
   * three hand-overs visit Risky, Safe and Neutral once each and come back to
   * the first node.
   */
  lemma RiskRotation(l: Logic, s: RiskState, c1: int, c2: int, c3: int)
    requires s.count < 3 * l.maxRiskDiscussRounds
    requires c1 < 3 * l.maxRiskDiscussRounds && c2 < 3 * l.maxRiskDiscussRounds && c3 < 3 * l.maxRiskDiscussRounds
    ensures var n1 := ShouldContinueRisk(l, s);
      var n2 := NextRisk(l, n1, c1);
      var n3 := NextRisk(l, n2, c2);
      n1 != n2 && n2 != n3 && n1 != n3 && NextRisk(l, n3, c3) == n1
  {
    assert StartsWith("Risky", "Risky") && StartsWith("Safe", "Safe");
    assert !StartsWith("Safe", "Risky") && !StartsWith("Neutral", "Risky") && !StartsWith("Neutral", "Safe");
  }
}
