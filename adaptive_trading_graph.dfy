/**
 * The adaptive enhancer of the trading graph: it reads a numeric signal out
 * of each analyst's report, collects the signals of a finished run into
 * predictions, records them with the adaptive system and stores the weighted
 * decision next to the original one under "_adaptive_enhancement".
 *
 * The regular expressions of the enhancer are written out as scanners over
 * the text: `\d` is an ASCII digit and `\s` one of the ASCII white-space
 * characters. The time stamp of an enhancement is the parameter `timestamp`.
 */
module AdaptiveTradingGraph {
  import opened Common
  import opened WeightManager
  import opened AdaptivePackage
  import AlphaVantageCommon

  // -------------------------------------------------------- number scanning

  function DigitOf(c: char): (d: nat)
    ensures d < 10
  {
    if IsDigitChar(c) then (c as int - '0' as int) else 0
  }

  /** The value of a run of decimal digits. */
  function DigitsValue(ds: string): (n: nat)
    decreases |ds|
  {
    if |ds| == 0 then 0 else 10 * DigitsValue(ds[..|ds| - 1]) + DigitOf(ds[|ds| - 1])
  }

  /** The end of the run of digits starting at j. */
  function DigitsEnd(s: string, j: nat): (k: nat)
    requires j <= |s|
    ensures j <= k <= |s|
    ensures forall t :: j <= t < k ==> IsDigitChar(s[t])
    ensures k < |s| ==> !IsDigitChar(s[k])
    decreases |s| - j
  {
    if j < |s| && IsDigitChar(s[j]) then DigitsEnd(s, j + 1) else j
  }

  /** The end of the run of white space starting at j (`\s*`). */
  function SpacesEnd(s: string, j: nat): (k: nat)
    requires j <= |s|
    ensures j <= k <= |s|
    ensures forall t :: j <= t < k ==> IsSpace(s[t])
    ensures k < |s| ==> !IsSpace(s[k])
    decreases |s| - j
  {
    if j < |s| && IsSpace(s[j]) then SpacesEnd(s, j + 1) else j
  }

  /** `float` of `\d+\.?\d*` starting at j: the digits, and the digits after a point as a fraction. */
  function Decimal(s: string, j: nat): (r: real)
    requires j < |s| && IsDigitChar(s[j])
    ensures r >= 0.0
  {
    var k := DigitsEnd(s, j);
    var whole := DigitsValue(s[j..k]) as real;
    if k < |s| && s[k] == '.' then
      var m := DigitsEnd(s, k + 1);
      whole + DigitsValue(s[k + 1..m]) as real / Pow10(m - k - 1) as real
    else whole
  }

  /** The number a pattern's group captures at j: `-?\d+\.?\d*` when signed, `\d+\.?\d*` otherwise. */
  function NumberAt(s: string, j: nat, signed: bool): (r: Option<real>)
    requires j <= |s|
    ensures r.Some? && !signed ==> r.value >= 0.0
  {
    if signed && j + 1 < |s| && s[j] == '-' && IsDigitChar(s[j + 1]) then Some(-Decimal(s, j + 1))
    else if j < |s| && IsDigitChar(s[j]) then Some(Decimal(s, j))
    else None
  }

  /** A match of `key[:=]\s*` followed by the number, starting at position i. */
  function MatchAt(s: string, i: nat, key: string, signed: bool): (r: Option<real>)
    requires i <= |s|
    ensures r.Some? ==> i + |key| < |s| && s[i..i + |key|] == key && (s[i + |key|] == ':' || s[i + |key|] == '=')
  {
    var e := i + |key|;
    if e < |s| && s[i..e] == key && (s[e] == ':' || s[e] == '=') then NumberAt(s, SpacesEnd(s, e + 1), signed)
    else None
  }

  /** `re.findall(pattern, s)[0]` as a number, scanning from position i: the leftmost match. */
  function FirstMatch(s: string, key: string, signed: bool, i: nat): (r: Option<real>)
    requires i <= |s|
    ensures r.Some? ==> exists j :: i <= j <= |s| && MatchAt(s, j, key, signed) == r
    ensures r.None? <==> forall t :: i <= t <= |s| ==> MatchAt(s, t, key, signed).None?
    decreases |s| - i
  {
    var m := MatchAt(s, i, key, signed);
    if m.Some? then m
    else if i == |s| then None
    else FirstMatch(s, key, signed, i + 1)
  }

  /** The leftmost match is the first position that matches. */
  lemma {:induction false} FirstMatchLeftmost(s: string, key: string, signed: bool, i: nat, j: nat)
    requires i <= j <= |s| && MatchAt(s, j, key, signed).Some?
    requires forall t :: i <= t < j ==> MatchAt(s, t, key, signed).None?
    ensures FirstMatch(s, key, signed, i) == MatchAt(s, j, key, signed)
    decreases j - i
  {
    if i < j {
      assert MatchAt(s, i, key, signed).None?;
      FirstMatchLeftmost(s, key, signed, i + 1, j);
    }
  }

  /** A match of `(\d+(?:\.\d+)?)%` starting at i. */
  function PercentAt(s: string, i: nat): (r: Option<real>)
    requires i <= |s|
    ensures r.Some? ==> r.value >= 0.0
  {
    if i < |s| && IsDigitChar(s[i]) then
      var k := DigitsEnd(s, i);
      var whole := DigitsValue(s[i..k]) as real;
      if k + 1 < |s| && s[k] == '.' && IsDigitChar(s[k + 1]) then
        var m := DigitsEnd(s, k + 1);
        if m < |s| && s[m] == '%' then Some(whole + DigitsValue(s[k + 1..m]) as real / Pow10(m - k - 1) as real)
        else None
      else if k < |s| && s[k] == '%' then Some(whole)
      else None
    else None
  }

  /** The first percentage of the text, scanning from i. */
  function FirstPercent(s: string, i: nat): (r: Option<real>)
    requires i <= |s|
    ensures r.Some? ==> r.value >= 0.0 && exists j :: i <= j <= |s| && PercentAt(s, j) == r
    ensures r.None? <==> forall t :: i <= t <= |s| ==> PercentAt(s, t).None?
    decreases |s| - i
  {
    var m := PercentAt(s, i);
    if m.Some? then m
    else if i == |s| then None
    else FirstPercent(s, i + 1)
  }

  // ------------------------------------------------------- report signals

  /** A keyword group and the signal it stands for. */
  type SignalGroup = (seq<string>, real)

  /** The keyword groups in the order `_parse_report_signal` tests them. */
  const SignalMap: seq<SignalGroup> := [
    (["strong buy", "definitely buy"], 0.9),
    (["buy", "long", "bullish"], 0.6),
    (["hold", "neutral"], 0.0),
    (["sell", "short", "bearish"], -0.6),
    (["strong sell", "definitely sell"], -0.9)]

  /** The same groups with the strong-sell group tested before the plain sell group. */
  const IntendedSignalMap: seq<SignalGroup> := [
    (["strong buy", "definitely buy"], 0.9),
    (["strong sell", "definitely sell"], -0.9),
    (["buy", "long", "bullish"], 0.6),
    (["hold", "neutral"], 0.0),
    (["sell", "short", "bearish"], -0.6)]

  function Negated(words: seq<string>): (r: seq<string>)
    ensures |r| == |words| && forall i :: 0 <= i < |words| ==> r[i] == "not " + words[i]
  {
    seq(|words|, i requires 0 <= i < |words| => "not " + words[i])
  }

  predicate SignalsBounded(groups: seq<SignalGroup>)
  {
    forall i :: 0 <= i < |groups| ==> -1.0 <= groups[i].1 <= 1.0
  }

  /**
   * The groups from the i-th on: the first group with a keyword in the text
   * gives its signal, or minus half of it when one of its keywords is
   * negated by a preceding "not "; no group gives 0.
   */
  function KeywordFrom(text: string, groups: seq<SignalGroup>, i: nat): (r: real)
    requires i <= |groups|
    ensures SignalsBounded(groups) ==> -1.0 <= r <= 1.0
    decreases |groups| - i
  {
    if i == |groups| then 0.0
    else if ContainsAny(text, groups[i].0) then
      if ContainsAny(text, Negated(groups[i].0)) then -groups[i].1 * 0.5 else groups[i].1
    else KeywordFrom(text, groups, i + 1)
  }

  /** The keyword reading of a text: the answer of its first matching group. */
  function KeywordSignal(text: string, groups: seq<SignalGroup>): (r: real)
    ensures SignalsBounded(groups) ==> -1.0 <= r <= 1.0
  {
    KeywordFrom(text, groups, 0)
  }

  /** The keyword reading is decided by the first group that matches, and is 0 when none does. */
  lemma {:induction false} KeywordFirstGroup(text: string, groups: seq<SignalGroup>, i: nat, k: nat)
    requires i <= k <= |groups|
    requires forall j :: i <= j < k ==> !ContainsAny(text, groups[j].0)
    requires k < |groups| ==> ContainsAny(text, groups[k].0)
    ensures KeywordFrom(text, groups, i) ==
      if k == |groups| then 0.0
      else if ContainsAny(text, Negated(groups[k].0)) then -groups[k].1 * 0.5 else groups[k].1
    decreases k - i
  {
    if i < k {
      KeywordFirstGroup(text, groups, i + 1, k);
    }
  }

  /** `_parse_report_signal` with the keyword groups as a parameter. */
  function ReportSignalWith(content: Value, groups: seq<SignalGroup>): (r: real)
    requires SignalsBounded(groups)
    ensures -1.0 <= r <= 1.0
    ensures !content.Str? || |content.s| == 0 ==> r == 0.0
  {
    if !content.Str? || |content.s| == 0 then 0.0
    else
      var text := Lower(content.s);
      var signal := FirstMatch(text, "signal", true, 0);
      if signal.Some? then Clamp(signal.value, -1.0, 1.0)
      else
        var confidence := FirstMatch(text, "confidence", false, 0);
        if confidence.Some? then Clamp(confidence.value, -1.0, 1.0)
        else
          var score := FirstMatch(text, "score", true, 0);
          if score.Some? then Clamp(score.value, -1.0, 1.0)
          else KeywordSignal(text, groups)
  }

  lemma MapsBounded()
    ensures SignalsBounded(SignalMap) && SignalsBounded(IntendedSignalMap)
  {
  }

  /** `_parse_report_signal` as written: the groups in the order of `SignalMap`. */
  function ReportSignalAsWritten(content: Value): (r: real)
    ensures -1.0 <= r <= 1.0
  {
    MapsBounded();
    ReportSignalWith(content, SignalMap)
  }

  /** `_parse_report_signal` with the strong-sell group reachable. */
  function ReportSignal(content: Value): (r: real)
    ensures -1.0 <= r <= 1.0
    ensures !content.Str? || |content.s| == 0 ==> r == 0.0
  {
    MapsBounded();
    ReportSignalWith(content, IntendedSignalMap)
  }

  /**
   * An explicit "signal:" (or "signal=") value settles the reading:
   * the leftmost such number, clamped to [-1, 1], whatever keywords the
   * report holds.
   */
  lemma ExplicitSignal(content: string, j: nat)
    requires j <= |content|
    requires MatchAt(Lower(content), j, "signal", true).Some?
    requires forall t :: 0 <= t < j ==> MatchAt(Lower(content), t, "signal", true).None?
    ensures ReportSignal(Str(content)) == Clamp(MatchAt(Lower(content), j, "signal", true).value, -1.0, 1.0)
    ensures ReportSignalAsWritten(Str(content)) == ReportSignal(Str(content))
  {
    FirstMatchLeftmost(Lower(content), "signal", true, 0, j);
  }

  /** Containment carries over from a word to a text holding it. */
  lemma ContainsInside(s: string, word: string, offset: nat, sub: string)
    requires Contains(s, word)
    requires offset + |sub| <= |word| && word[offset..offset + |sub|] == sub
    ensures Contains(s, sub)
  {
    var p := IndexOf(s, word).value;
    var q := p + offset;
    forall k | 0 <= k < |sub| ensures s[q + k] == sub[k] {
      assert s[p..p + |word|][offset + k] == s[q + k];
      assert word[offset..offset + |sub|][k] == word[offset + k];
    }
    assert s[q..q + |sub|] == sub;
    ContainsAt(s, sub, q);
  }

  /** A text containing a word contains each of its characters. */
  lemma ContainsChar(t: string, w: string, o: nat)
    requires o < |w|
    ensures Contains(t, w) ==> w[o] in t
  {
    if Contains(t, w) {
      var p := IndexOf(t, w).value;
      assert t[p..p + |w|][o] == t[p + o];
    }
  }

  /**
   * As written, the strong-sell group is never reached: both its keywords
   * hold "sell", so the plain sell group (or an earlier one) always answers
   * first, and neither -0.9 nor its negation 0.45 can come out.
   */
  lemma StrongSellUnreachable(text: string)
    ensures KeywordSignal(text, SignalMap) != -0.9 && KeywordSignal(text, SignalMap) != 0.45
  {
    var g := SignalMap;
    if ContainsAny(text, g[4].0) {
      var i :| 0 <= i < |g[4].0| && Contains(text, g[4].0[i]);
      if i == 0 {
        ContainsInside(text, "strong sell", 7, "sell");
      } else {
        ContainsInside(text, "definitely sell", 11, "sell");
      }
      assert Contains(text, g[3].0[0]);
      assert KeywordFrom(text, g, 3) in {-0.6, 0.3};
    } else {
      assert KeywordFrom(text, g, 4) == 0.0;
    }
    assert KeywordFrom(text, g, 2) in {0.0, -0.6, 0.3};
    assert KeywordFrom(text, g, 1) in {0.6, -0.3, 0.0, -0.6, 0.3};
  }

  /**
   * A text whose only keywords are strong sells, none negated, reads as a
   * plain sell (-0.6) as written, and as a strong sell (-0.9) once the
   * groups are reordered.
   */
  lemma StrongSellReading(text: string)
    requires ContainsAny(text, SignalMap[4].0)
    requires !ContainsAny(text, SignalMap[0].0) && !ContainsAny(text, SignalMap[1].0) && !ContainsAny(text, SignalMap[2].0)
    requires !Contains(text, "not ")
    ensures KeywordSignal(text, SignalMap) == -0.6
    ensures KeywordSignal(text, IntendedSignalMap) == -0.9
  {
    var g, h := SignalMap, IntendedSignalMap;
    var i :| 0 <= i < |g[4].0| && Contains(text, g[4].0[i]);
    if i == 0 {
      ContainsInside(text, "strong sell", 7, "sell");
    } else {
      ContainsInside(text, "definitely sell", 11, "sell");
    }
    assert Contains(text, g[3].0[0]);
    forall words: seq<string> ensures !ContainsAny(text, Negated(words)) {
      forall k | 0 <= k < |words| ensures !Contains(text, Negated(words)[k]) {
        if Contains(text, Negated(words)[k]) {
          ContainsInside(text, Negated(words)[k], 0, "not ");
        }
      }
    }
    KeywordFirstGroup(text, g, 0, 3);
    assert h[0] == g[0] && h[1] == g[4];
    KeywordFirstGroup(text, h, 0, 1);
  }

  const DefinitelySell := "definitely sell"

  lemma DefinitelySellLacks()
    ensures 'b' !in DefinitelySell && 'o' !in DefinitelySell && 'u' !in DefinitelySell
  {
  }

  lemma NoneOfTwo(t: string, a: string, b: string)
    requires !Contains(t, a) && !Contains(t, b)
    ensures !ContainsAny(t, [a, b])
  {
  }

  lemma NoneOfThree(t: string, a: string, b: string, c: string)
    requires !Contains(t, a) && !Contains(t, b) && !Contains(t, c)
    ensures !ContainsAny(t, [a, b, c])
  {
  }

  /** A text without a 'b' holds no strong-buy keyword. */
  lemma NoStrongBuy(t: string)
    requires 'b' !in t
    ensures !ContainsAny(t, SignalMap[0].0)
  {
    ContainsChar(t, "strong buy", 7);
    ContainsChar(t, "definitely buy", 11);
    NoneOfTwo(t, "strong buy", "definitely buy");
  }

  /** A text without a 'b' or an 'o' holds no buy keyword. */
  lemma NoBuy(t: string)
    requires 'b' !in t && 'o' !in t
    ensures !ContainsAny(t, SignalMap[1].0)
  {
    ContainsChar(t, "buy", 0);
    ContainsChar(t, "long", 1);
    ContainsChar(t, "bullish", 0);
    NoneOfThree(t, "buy", "long", "bullish");
  }

  /** A text without an 'o' or a 'u' holds no hold keyword and no "not ". */
  lemma NoHold(t: string)
    requires 'o' !in t && 'u' !in t
    ensures !ContainsAny(t, SignalMap[2].0)
    ensures !Contains(t, "not ")
  {
    ContainsChar(t, "hold", 1);
    ContainsChar(t, "neutral", 2);
    NoneOfTwo(t, "hold", "neutral");
    ContainsChar(t, "not ", 1);
  }

  /** "definitely sell" is such a text: -0.6 as written, -0.9 as intended. */
  lemma DefinitelySellExample()
    ensures KeywordSignal(DefinitelySell, SignalMap) == -0.6
    ensures KeywordSignal(DefinitelySell, IntendedSignalMap) == -0.9
  {
    assert StartsWith(DefinitelySell, "definitely sell");
    assert Contains(DefinitelySell, SignalMap[4].0[1]);
    DefinitelySellLacks();
    NoStrongBuy(DefinitelySell);
    NoBuy(DefinitelySell);
    NoHold(DefinitelySell);
    StrongSellReading(DefinitelySell);
  }

  /** `_parse_debate_signal`: 0.6 or 0.3 for a bull, -0.6 or -0.3 for a bear, by whether the side's name occurs. */
  function DebateSignal(content: string, analystType: string): (r: real)
    ensures |content| == 0 || (analystType != "bull" && analystType != "bear") ==> r == 0.0
    ensures |content| > 0 && analystType == "bull" ==> r == (if Contains(Lower(content), "bull") then 0.6 else 0.3)
    ensures |content| > 0 && analystType == "bear" ==> r == (if Contains(Lower(content), "bear") then -0.6 else -0.3)
    ensures -0.6 <= r <= 0.6
  {
    if |content| == 0 then 0.0
    else if analystType == "bull" then (if Contains(Lower(content), "bull") then 0.6 else 0.3)
    else if analystType == "bear" then (if Contains(Lower(content), "bear") then -0.6 else -0.3)
    else 0.0
  }

  /**
   * `_parse_decision`: a buy without a sell is 0.5 plus the first
   * percentage as a fraction, capped at 1, or 0.8 without a percentage; a
   * sell without a buy is -0.8; anything else is 0. A decision that is
   * neither empty nor text cannot be lower-cased.
   */
  function ParseDecision(decision: Value): (r: Result<real>)
    ensures !Truthy(decision) ==> r == Ok(0.0)
    ensures r.Err? <==> Truthy(decision) && !decision.Str?
    ensures r.Ok? ==> -0.8 <= r.value <= 1.0
    ensures r.Ok? && decision.Str? && Contains(Lower(decision.s), "buy") && !Contains(Lower(decision.s), "sell")
      ==> 0.5 <= r.value <= 1.0
    ensures r.Ok? && decision.Str? && Contains(Lower(decision.s), "sell") && !Contains(Lower(decision.s), "buy")
      ==> r.value == -0.8
    ensures r.Ok? && decision.Str? && Contains(Lower(decision.s), "sell") == Contains(Lower(decision.s), "buy")
      ==> r.value == 0.0
  {
    if !Truthy(decision) then Ok(0.0)
    else if !decision.Str? then Err("'" + AlphaVantageCommon.TypeName(decision) + "' object has no attribute 'lower'")
    else
      var text := Lower(decision.s);
      if Contains(text, "buy") && !Contains(text, "sell") then
        match FirstPercent(decision.s, 0)
        case Some(p) => Ok(Min(1.0, 0.5 + p / 100.0))
        case None => Ok(0.8)
      else if Contains(text, "sell") && !Contains(text, "buy") then Ok(-0.8)
      else Ok(0.0)
  }

  /** A buy without a percentage is 0.8. */
  lemma DecisionExamples()
    ensures ParseDecision(Str("buy")) == Ok(0.8)
  {
    var s := "buy";
    assert Lower(s) == s;
    assert StartsWith(s, "buy");
    ContainsChar(s, "sell", 0);
    assert PercentAt(s, 0).None? && PercentAt(s, 1).None? && PercentAt(s, 2).None? && PercentAt(s, 3).None?;
  }

  /** `_truncate_text`: "" for an empty or non-text value, the text up to `maxLen` characters, else its head and "...". */
  function Truncate(text: Value, maxLen: nat): (r: string)
    ensures !text.Str? ==> r == ""
    ensures text.Str? && |text.s| <= maxLen ==> r == text.s
    ensures text.Str? && |text.s| > maxLen ==> |r| == maxLen + 3 && r[..maxLen] == text.s[..maxLen] && r[maxLen..] == "..."
  {
    if !text.Str? || |text.s| == 0 then ""
    else if |text.s| <= maxLen then text.s
    else text.s[..maxLen] + "..."
  }

  // ------------------------------------------------------- extraction

  const ReportSuffix := "_report"

  /** The names of the reports the extraction reads, in order. */
  const ReportBases: seq<string> := ["market", "sentiment", "news", "technical", "quantitative",
                                     "research_manager", "portfolio_manager"]

  /** The report fields: each name with "_report" appended. */
  const ReportFields: seq<string> := [
    "market" + ReportSuffix, "sentiment" + ReportSuffix, "news" + ReportSuffix, "technical" + ReportSuffix,
    "quantitative" + ReportSuffix, "research_manager" + ReportSuffix, "portfolio_manager" + ReportSuffix]

  /** The agent names those fields are recorded under, in the same order. */
  const ReportAgents: seq<string> := ["market_analyst", "sentiment_analyst", "news_analyst", "technical_analyst",
                                      "quantitative_analyst", "research_manager", "portfolio_manager"]

  /** The agent a report field belongs to: the field without "_report", the five analysts renamed. */
  function ReportAgentName(field: string): (r: string)
  {
    var n := Replace(field, ReportSuffix, "");
    if n == "market" then "market_analyst"
    else if n == "sentiment" then "sentiment_analyst"
    else if n == "news" then "news_analyst"
    else if n == "technical" then "technical_analyst"
    else if n == "quantitative" then "quantitative_analyst"
    else n
  }

  /** Removing the suffix from a name with no "_r" in it leaves the name. */
  lemma {:induction false} ReplaceSuffix(x: string)
    requires forall j :: 0 <= j < |x| - 1 ==> !(x[j] == '_' && x[j + 1] == 'r')
    ensures Replace(x + ReportSuffix, ReportSuffix, "") == x
    decreases |x|
  {
    var s := x + ReportSuffix;
    if |x| == 0 {
      assert s == ReportSuffix;
      assert s[|ReportSuffix|..] == "";
    } else {
      var head := s[..|ReportSuffix|];
      assert head[0] == x[0];
      assert head[1] == if |x| == 1 then '_' else x[1];
      assert head != ReportSuffix by {
        assert head[0] != '_' || head[1] != 'r';
      }
      assert s[1..] == x[1..] + ReportSuffix;
      ReplaceSuffix(x[1..]);
    }
  }

  /** Each report field is recorded under the agent name in the same position. */
  lemma ReportAgentNames(i: nat)
    requires i < |ReportFields|
    ensures ReportAgentName(ReportFields[i]) == ReportAgents[i]
  {
    var x := ReportBases[i];
    assert forall j :: 0 <= j < |x| - 1 ==> !(x[j] == '_' && x[j + 1] == 'r') by {
      forall j | 0 <= j < |x| - 1 && x[j] == '_' ensures x[j + 1] != 'r' {
        assert x[j + 1] == 'm';
      }
    }
    ReplaceSuffix(x);
  }

  lemma ReportAgentsDistinct()
    ensures Unique(ReportAgents)
  {
    var a := ReportAgents;
    var lengths := [14, 17, 12, 17, 20, 16, 17];
    forall i | 0 <= i < 7 ensures |a[i]| == lengths[i] {}
    assert a[1][0] != a[3][0] && a[1][0] != a[6][0] && a[3][0] != a[6][0];
  }

  /** The prediction a report field gives: its report's signal when the field is present and truthy. */
  function ReportEntry(state: seq<(string, Value)>, f: string): Option<real>
  {
    if HasKey(state, f) && Truthy(GetOr(state, f, Null)) then Some(ReportSignal(GetOr(state, f, Null))) else None
  }

  /** The predictions from the report fields among the first fields given: a present, truthy field records its signal. */
  function ReportPredictions(state: seq<(string, Value)>, fields: seq<string>): (r: seq<(string, real)>)
    decreases |fields|
  {
    if |fields| == 0 then []
    else
      var p := ReportPredictions(state, fields[..|fields| - 1]);
      var f := fields[|fields| - 1];
      match ReportEntry(state, f)
      case Some(v) => Put(p, ReportAgentName(f), v)
      case None => p
  }

  /** The numeric entries of `signals`, each overriding the prediction of its name. */
  function Overrides(p: seq<(string, real)>, signals: seq<(string, Value)>): (r: seq<(string, real)>)
    decreases |signals|
  {
    if |signals| == 0 then p
    else
      var q := Overrides(p, signals[..|signals| - 1]);
      var e := signals[|signals| - 1];
      match AsNumber(e.1)
      case Some(x) => Put(q, e.0, x)
      case None => q
  }

  /**
   * `_extract_from_final_state`: the report predictions, then the numeric
   * `signals`. A debate state is a dictionary, which has no attribute
   * `current_response`, so it adds nothing.
   */
  function Extract(state: seq<(string, Value)>): (r: seq<(string, real)>)
  {
    var p := ReportPredictions(state, ReportFields);
    var signals := GetOr(state, "signals", Null);
    if signals.Dict? then Overrides(p, signals.entries) else p
  }

  /** The loop over the report fields. */
  method ReadReports(state: seq<(string, Value)>) returns (predictions: seq<(string, real)>)
    ensures predictions == ReportPredictions(state, ReportFields)
  {
    predictions := [];
    var fields := ReportFields;
    var i := 0;
    while i < |fields|
      invariant 0 <= i <= |fields|
      invariant predictions == ReportPredictions(state, fields[..i])
    {
      ReportPredictionsNext(state, fields, i);
      var field := fields[i];
      if HasKey(state, field) && Truthy(GetOr(state, field, Null)) {
        predictions := Put(predictions, ReportAgentName(field), ReportSignal(GetOr(state, field, Null)));
      }
      i := i + 1;
    }
    assert fields[..i] == fields;
  }

  /** One more field: it records its signal, when it gives one, over the predictions of the fields before it. */
  lemma ReportPredictionsNext(state: seq<(string, Value)>, fields: seq<string>, i: nat)
    requires i < |fields|
    ensures ReportPredictions(state, fields[..i + 1]) ==
      if HasKey(state, fields[i]) && Truthy(GetOr(state, fields[i], Null))
      then Put(ReportPredictions(state, fields[..i]), ReportAgentName(fields[i]), ReportSignal(GetOr(state, fields[i], Null)))
      else ReportPredictions(state, fields[..i])
  {
    assert fields[..i + 1][..i] == fields[..i];
  }

  /** The loop over the numeric signals. */
  method ApplySignals(base: seq<(string, real)>, entries: seq<(string, Value)>) returns (predictions: seq<(string, real)>)
    ensures predictions == Overrides(base, entries)
  {
    predictions := base;
    var j := 0;
    while j < |entries|
      invariant 0 <= j <= |entries|
      invariant predictions == Overrides(base, entries[..j])
    {
      assert entries[..j + 1][..j] == entries[..j];
      var number := AsNumber(entries[j].1);
      if number.Some? {
        predictions := Put(predictions, entries[j].0, number.value);
      }
      j := j + 1;
    }
    assert entries[..j] == entries;
  }

  /** The report fields first, then the numeric signals. */
  method ExtractFromFinalState(state: seq<(string, Value)>) returns (predictions: seq<(string, real)>)
    ensures predictions == Extract(state)
  {
    predictions := ReadReports(state);
    var signals := GetOr(state, "signals", Null);
    if signals.Dict? {
      predictions := ApplySignals(predictions, signals.entries);
    }
  }

  /** The report predictions only name agents of the fields read. */
  lemma {:induction false} ReportPredictionsNames(state: seq<(string, Value)>, fields: seq<string>, n: string)
    requires forall i :: 0 <= i < |fields| ==> ReportAgentName(fields[i]) != n
    ensures !HasKey(ReportPredictions(state, fields), n)
    decreases |fields|
  {
    if |fields| > 0 {
      var front := fields[..|fields| - 1];
      var f := fields[|fields| - 1];
      forall i | 0 <= i < |front| ensures ReportAgentName(front[i]) != n {
        assert front[i] == fields[i];
      }
      ReportPredictionsNames(state, front, n);
      if ReportEntry(state, f).Some? {
        PutGet(ReportPredictions(state, front), ReportAgentName(f), ReportEntry(state, f).value, n);
      }
    }
  }

  /** With distinct agent names, each field's agent reads the signal of its report when the field is present and truthy. */
  lemma {:induction false} ReportPredictionRead(state: seq<(string, Value)>, fields: seq<string>, i: nat)
    requires i < |fields|
    requires forall a, b :: 0 <= a < b < |fields| ==> ReportAgentName(fields[a]) != ReportAgentName(fields[b])
    ensures var f := fields[i];
      Get(ReportPredictions(state, fields), ReportAgentName(f)) == ReportEntry(state, f)
    decreases |fields|
  {
    var front := fields[..|fields| - 1];
    var n := ReportAgentName(fields[i]);
    ReportPredictionsStep(state, fields, n);
    if i < |fields| - 1 {
      assert fields[i] == front[i];
      forall a, b | 0 <= a < b < |front| ensures ReportAgentName(front[a]) != ReportAgentName(front[b]) {
        assert front[a] == fields[a] && front[b] == fields[b];
      }
      ReportPredictionRead(state, front, i);
    } else {
      forall j | 0 <= j < |front| ensures ReportAgentName(front[j]) != n {
        assert front[j] == fields[j];
      }
      ReportPredictionsNames(state, front, n);
    }
  }

  /** The last field decides its agent's prediction when it gives one; otherwise the earlier fields do. */
  lemma ReportPredictionsStep(state: seq<(string, Value)>, fields: seq<string>, n: string)
    requires |fields| > 0
    ensures var last := fields[|fields| - 1];
      Get(ReportPredictions(state, fields), n)
      == if ReportEntry(state, last).Some? && n == ReportAgentName(last) then ReportEntry(state, last)
         else Get(ReportPredictions(state, fields[..|fields| - 1]), n)
  {
    var last := fields[|fields| - 1];
    var p := ReportPredictions(state, fields[..|fields| - 1]);
    if ReportEntry(state, last).Some? {
      assert ReportPredictions(state, fields) == Put(p, ReportAgentName(last), ReportEntry(state, last).value);
      PutGet(p, ReportAgentName(last), ReportEntry(state, last).value, n);
    }
  }

  /** With distinct names in `signals`, a numeric signal becomes the prediction of its name, and any other name keeps its prediction. */
  lemma {:induction false} OverrideRead(p: seq<(string, real)>, signals: seq<(string, Value)>, n: string)
    requires Unique(Keys(signals))
    ensures Get(Overrides(p, signals), n) == match Get(signals, n)
      case Some(v) => if AsNumber(v).Some? then Some(AsNumber(v).value) else Get(p, n)
      case None => Get(p, n)
    decreases |signals|
  {
    if |signals| > 0 {
      var front := signals[..|signals| - 1];
      var e := signals[|signals| - 1];
      LastSplit(signals);
      forall a, b | 0 <= a < b < |front| ensures Keys(front)[a] != Keys(front)[b] {
        assert Keys(signals)[a] != Keys(signals)[b];
      }
      OverrideRead(p, front, n);
      GetConcat(front, [e], n);
      HasKeySingle([e], n);
      var q := Overrides(p, front);
      if AsNumber(e.1).Some? {
        PutGet(q, e.0, AsNumber(e.1).value, n);
      }
      assert !HasKey(front, e.0) by {
        forall a | 0 <= a < |front| ensures front[a].0 != e.0 {
          assert Keys(signals)[a] != Keys(signals)[|signals| - 1];
        }
      }
    }
  }

  /**
   * What the extraction yields for a report field: without a `signals`
   * entry of the same name, the agent's prediction is its report's signal
   * exactly when the field is present and truthy.
   */
  lemma ExtractReport(state: seq<(string, Value)>, i: nat)
    requires i < |ReportFields|
    requires var s := GetOr(state, "signals", Null); s.Dict? ==> Unique(Keys(s.entries)) && !HasKey(s.entries, ReportAgents[i])
    ensures var f := ReportFields[i];
      Get(Extract(state), ReportAgents[i])
      == if HasKey(state, f) && Truthy(GetOr(state, f, Null)) then Some(ReportSignal(GetOr(state, f, Null))) else None
  {
    ReportAgentsDistinct();
    forall a | 0 <= a < |ReportFields| ensures ReportAgentName(ReportFields[a]) == ReportAgents[a] {
      ReportAgentNames(a);
    }
    ReportPredictionRead(state, ReportFields, i);
    var s := GetOr(state, "signals", Null);
    if s.Dict? {
      OverrideRead(ReportPredictions(state, ReportFields), s.entries, ReportAgents[i]);
    }
  }

  /** A numeric entry of `signals` overrides whatever the reports gave its name. */
  lemma ExtractSignal(state: seq<(string, Value)>, n: string, v: Value)
    requires var s := GetOr(state, "signals", Null); s.Dict? && Unique(Keys(s.entries)) && Get(s.entries, n) == Some(v)
    requires AsNumber(v).Some?
    ensures Get(Extract(state), n) == AsNumber(v)
  {
    OverrideRead(ReportPredictions(state, ReportFields), GetOr(state, "signals", Null).entries, n);
  }

  // ------------------------------------------------------- the enhancer

  /** The agents registered at start, with their types, in order. */
  const DefaultAgents: seq<(string, string)> := [
    ("market_analyst", "analyst"), ("sentiment_analyst", "analyst"), ("news_analyst", "analyst"),
    ("technical_analyst", "analyst"), ("quantitative_analyst", "analyst"),
    ("bull_researcher", "researcher"), ("bear_researcher", "researcher"),
    ("risky_analyst", "debator"), ("safe_analyst", "debator"), ("neutral_analyst", "debator"),
    ("trader", "trader"), ("research_manager", "manager"), ("portfolio_manager", "manager")]

  /** The key the enhancement is stored under. */
  const EnhancementKey := "_adaptive_enhancement"
  const FinalDecisionKey := "final_trade_decision"

  function NumDict(d: seq<(string, real)>): (r: Value)
    ensures r.Dict? && Keys(r.entries) == Keys(d)
  {
    Dict(seq(|d|, i requires 0 <= i < |d| => (d[i].0, Num(d[i].1))))
  }

  /** The state enhanced with the predictions and the weighted decision, unless the original decision cannot be parsed. */
  function Enhanced(state: seq<(string, Value)>, preds: seq<(string, real)>, d: Decision, timestamp: string): (r: Result<Value>)
    ensures r.Err? <==> HasKey(state, FinalDecisionKey) && ParseDecision(GetOr(state, FinalDecisionKey, Null)).Err?
    ensures r.Ok? ==> r.value.Dict? && r.value.entries == Put(state, EnhancementKey, GetOr(r.value.entries, EnhancementKey, Null))
  {
    var base := [("adaptive_timestamp", Str(timestamp)), ("adaptive_predictions", NumDict(preds)),
                 ("adaptive_weights", NumDict(d.weights)), ("adaptive_decision", Num(d.weightedDecision)),
                 ("adaptive_raw_decision", Num(d.weightedDecision))];
    if HasKey(state, FinalDecisionKey) then
      var original := GetOr(state, FinalDecisionKey, Null);
      match ParseDecision(original)
      case Err(e) => Err(e)
      case Ok(x) =>
        var data := Dict(base + [("original_decision", original), ("original_decision_numeric", Num(x))]);
        PutGet(state, EnhancementKey, data, EnhancementKey);
        Ok(Dict(Put(state, EnhancementKey, data)))
    else
      PutGet(state, EnhancementKey, Dict(base), EnhancementKey);
      Ok(Dict(Put(state, EnhancementKey, Dict(base))))
  }

  /** What `enhance_final_state` needs to do anything: a dictionary, a name, a date and at least one prediction. */
  predicate Eligible(finalState: Value, companyName: string, tradeDate: string)
  {
    finalState.Dict? && |companyName| > 0 && |tradeDate| > 0 && |Extract(finalState.entries)| > 0
  }

  /** Enhancing sets the enhancement key and leaves every other key of the state as it was. */
  lemma EnhancementOnlyKey(state: seq<(string, Value)>, preds: seq<(string, real)>, d: Decision, timestamp: string, k: string)
    requires Enhanced(state, preds, d, timestamp).Ok?
    requires k != EnhancementKey
    ensures Get(Enhanced(state, preds, d, timestamp).value.entries, k) == Get(state, k)
  {
    var r := Enhanced(state, preds, d, timestamp).value;
    PutGet(state, EnhancementKey, GetOr(r.entries, EnhancementKey, Null), k);
  }

  class AdaptiveGraphEnhancer {
    const adaptive: AdaptiveSystem

    ghost predicate Valid()
      reads this, adaptive, adaptive.weightManager
    {
      adaptive.Valid()
    }

    /** A new enhancer: a fresh adaptive system with the default agents registered in order, each with the first type listed for it. */
    constructor ()
      ensures Valid() && fresh(adaptive) && fresh(adaptive.weightManager)
      ensures forall n :: n in adaptive.weightManager.agents <==> HasKey(DefaultAgents, n)
      ensures forall n :: n in adaptive.weightManager.agents ==>
        adaptive.weightManager.agents[n] == FreshRecord(n, Get(DefaultAgents, n).value, adaptive.config.initialWeight)
      ensures adaptive.weightManager.history == []
    {
      adaptive := new AdaptiveSystem(None);
      new;
      adaptive.RegisterEach(DefaultAgents);
    }

    /**
     * `enhance_final_state`: a state it cannot use is returned unchanged;
     * otherwise every extracted prediction is recorded and the state gets
     * the enhancement built from the weighted decision.
     */
    method EnhanceFinalState(finalState: Value, companyName: string, tradeDate: string, timestamp: string)
      returns (r: Result<Value>)
      requires Valid()
      modifies adaptive.weightManager
      ensures Valid()
      ensures !Eligible(finalState, companyName, tradeDate) ==>
        r == Ok(finalState) && adaptive.weightManager.agents == old(adaptive.weightManager.agents)
      ensures Eligible(finalState, companyName, tradeDate) ==>
        var preds := Extract(finalState.entries);
        adaptive.weightManager.agents == RecordedKnown(old(adaptive.weightManager.agents), preds)
        && r == Enhanced(finalState.entries, preds, adaptive.WeightedDecision(preds), timestamp)
      ensures adaptive.weightManager.names == old(adaptive.weightManager.names)
      ensures adaptive.weightManager.history == old(adaptive.weightManager.history)
    {
      if !finalState.Dict? || |companyName| == 0 || |tradeDate| == 0 {
        return Ok(finalState);
      }
      var predictions := ExtractFromFinalState(finalState.entries);
      if |predictions| == 0 {
        return Ok(finalState);
      }
      adaptive.RecordEach(predictions);
      var decision := adaptive.WeightedDecision(predictions);
      r := Enhanced(finalState.entries, predictions, decision, timestamp);
    }
  }
}
