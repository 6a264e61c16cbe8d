/**
 * The technical-indicator tools: parsing the price data a vendor returns,
 * the Fibonacci retracement levels and the level closest to the price, the
 * column and size checks before the indicators are computed, and the
 * signal rules of the indicator report. The time series arithmetic of
 * pandas is outside the model: the latest indicator values, the frame's
 * columns and its row count are inputs, and so is the formatting of floats.
 */
module TechnicalIndicators {
  import opened Common
  import opened AlphaVantageCommon

  // ------------------------------------------------------------- price data

  /** What `parse_price_data` returns: the points, or an error with either `data: []` or the raw text. */
  datatype Parsed = Points(points: Value) | Failed(error: Value, raw: Option<string>)

  const AltKeys: seq<string> := ["values", "prices", "series", "items", "results", "ohlc"]
  const OhlcColumns: seq<string> := ["open", "high", "low", "close"]

  /** The first of `keys` whose value is a list; an empty list when there is none. */
  function FirstListUnder(es: Dict, keys: seq<string>): (r: Value)
    ensures r.List?
    ensures r != List([]) ==>
      exists i :: 0 <= i < |keys| && HasKey(es, keys[i]) && GetOr(es, keys[i], Null) == r
        && forall j :: 0 <= j < i ==> !(HasKey(es, keys[j]) && GetOr(es, keys[j], Null).List?)
    ensures (forall i :: 0 <= i < |keys| ==> !(HasKey(es, keys[i]) && GetOr(es, keys[i], Null).List?)) ==> r == List([])
  {
    if keys == [] then List([])
    else if HasKey(es, keys[0]) && GetOr(es, keys[0], Null).List? then GetOr(es, keys[0], Null)
    else
      var r := FirstListUnder(es, keys[1..]);
      assert forall i :: 0 < i < |keys| ==> keys[i] == keys[1..][i - 1];
      if r != List([]) then
        var i :| 0 <= i < |keys| - 1 && HasKey(es, keys[1..][i]) && GetOr(es, keys[1..][i], Null) == r
          && forall j :: 0 <= j < i ==> !(HasKey(es, keys[1..][j]) && GetOr(es, keys[1..][j], Null).List?);
        assert HasKey(es, keys[i + 1]) && GetOr(es, keys[i + 1], Null) == r;
        assert forall j :: 0 <= j < i + 1 ==> !(HasKey(es, keys[j]) && GetOr(es, keys[j], Null).List?) by {
          forall j | 0 <= j < i + 1 ensures !(HasKey(es, keys[j]) && GetOr(es, keys[j], Null).List?) {
            if j > 0 { assert keys[j] == keys[1..][j - 1]; }
          }
        }
        r
      else r
  }

  /** Whether the dictionary itself holds the four price fields. */
  predicate HasOhlc(es: Dict)
  {
    forall i :: 0 <= i < |OhlcColumns| ==> HasKey(es, OhlcColumns[i])
  }

  /**
   * The points of a dictionary: its "data" entry, else the first list among
   * the alternative keys, else the dictionary itself when it is one bar.
   */
  function SelectPoints(es: Dict): (r: Value)
    ensures HasKey(es, "data") ==> r == GetOr(es, "data", Null)
    ensures !HasKey(es, "data") && Truthy(FirstListUnder(es, AltKeys)) ==> r == FirstListUnder(es, AltKeys)
    ensures !HasKey(es, "data") && !Truthy(FirstListUnder(es, AltKeys)) ==>
      r == (if HasOhlc(es) then List([Dict(es)]) else List([]))
  {
    if HasKey(es, "data") then GetOr(es, "data", Null)
    else
      var found := FirstListUnder(es, AltKeys);
      if !Truthy(found) && HasOhlc(es) then List([Dict(es)]) else found
  }

  /** The empty-points check at the end. */
  function NonEmpty(points: Value): (r: Parsed)
  {
    if !Truthy(points) then Failed(Str("无数据点"), None) else Points(points)
  }

  /** The part of `parse_price_data` after the text has been decoded. */
  function ParseValue(v: Value): (r: Parsed)
  {
    match v
    case Dict(es) =>
      if !Truthy(GetOr(es, "success", Bool(true))) then Failed(GetOr(es, "error", Str("未知错误")), None)
      else NonEmpty(SelectPoints(es))
    case List(_) => NonEmpty(v)
    case _ => Failed(Str("不支持的数据类型: <class '" + TypeName(v) + "'>"), None)
  }

  /**
   * `parse_price_data`: `decode` stands for `json.loads`, with the text of
   * the decoding error as its failure.
   */
  function ParsePriceData(input: Value, decode: string -> Result<Value>): (r: Parsed)
    ensures input.Null? ==> r == Failed(Str("数据为空"), None)
    ensures input.Str? && !StartsWith(Strip(input.s), "{") && !StartsWith(Strip(input.s), "[") ==>
      r == Failed(Str("无法解析的数据格式"), Some(Take(input.s, 200)))
    ensures r.Failed? && r.raw.Some? ==> input.Str? && r.raw.value == Take(input.s, 200)
    ensures input.Dict? && !Truthy(GetOr(input.entries, "success", Bool(true))) ==>
      r == Failed(GetOr(input.entries, "error", Str("未知错误")), None)
    ensures input.List? ==> r == (if |input.items| == 0 then Failed(Str("无数据点"), None) else Points(input))
    ensures input.Dict? && Truthy(GetOr(input.entries, "success", Bool(true))) ==> r == NonEmpty(SelectPoints(input.entries))
    ensures r.Points? ==> Truthy(r.points)
  {
    if input.Null? then Failed(Str("数据为空"), None)
    else if input.Str? then
      var t := Strip(input.s);
      if StartsWith(t, "{") || StartsWith(t, "[") then
        match decode(input.s)
        case Err(m) => Failed(Str("JSON解析失败: " + m), Some(Take(input.s, 200)))
        case Ok(v) => ParseValue(v)
      else Failed(Str("无法解析的数据格式"), Some(Take(input.s, 200)))
    else ParseValue(input)
  }

  /** A value of another type is refused with its type named. */
  lemma OtherTypeRefused(input: Value, decode: string -> Result<Value>)
    requires input.Bool? || input.Int? || input.Num?
    ensures ParsePriceData(input, decode) == Failed(Str("不支持的数据类型: <class '" + TypeName(input) + "'>"), None)
  {
  }

  /** A single bar under no known key is wrapped as the only point. */
  lemma SingleBarWrapped(es: Dict)
    requires HasOhlc(es) && !HasKey(es, "data") && !HasKey(es, "success")
    requires forall i :: 0 <= i < |AltKeys| ==> !HasKey(es, AltKeys[i])
    ensures ParsePriceData(Dict(es), (s: string) => Err("")) == Points(List([Dict(es)]))
  {
    assert GetOr(es, "success", Bool(true)) == Bool(true);
  }

  // -------------------------------------------------------------- Fibonacci

  /** One row of the price frame. */
  datatype Bar = Bar(open: real, high: real, low: real, close: real)

  /** The largest value. */
  function Highest(s: seq<real>): (r: real)
    requires |s| > 0
    ensures r in s && forall i :: 0 <= i < |s| ==> s[i] <= r
  {
    if |s| == 1 then s[0] else Max(s[0], Highest(s[1..]))
  }

  /** The smallest value. */
  function Lowest(s: seq<real>): (r: real)
    requires |s| > 0
    ensures r in s && forall i :: 0 <= i < |s| ==> r <= s[i]
  {
    if |s| == 1 then s[0] else Min(s[0], Lowest(s[1..]))
  }

  function Highs(bars: seq<Bar>): (r: seq<real>)
    ensures |r| == |bars| && forall i :: 0 <= i < |bars| ==> r[i] == bars[i].high
  {
    seq(|bars|, i requires 0 <= i < |bars| => bars[i].high)
  }

  function Lows(bars: seq<Bar>): (r: seq<real>)
    ensures |r| == |bars| && forall i :: 0 <= i < |bars| ==> r[i] == bars[i].low
  {
    seq(|bars|, i requires 0 <= i < |bars| => bars[i].low)
  }

  /** The retracement ratios, each with its key. */
  const Ratios: seq<(string, real)> :=
    [("0.0", 0.0), ("0.236", 0.236), ("0.382", 0.382), ("0.5", 0.5), ("0.618", 0.618), ("0.786", 0.786), ("1.0", 1.0)]

  /** The keys are already in ascending order of their value, so `sorted(levels.items(), key=float)` keeps them. */
  lemma RatiosAscending()
    ensures forall i, j :: 0 <= i < j < |Ratios| ==> Ratios[i].1 < Ratios[j].1
  {
  }

  datatype Fibonacci = Fibonacci(high: real, low: real, rangeSize: real, levels: seq<(string, real)>)

  /** The rows the levels are taken from: the last `lookback`, or all of them when there are fewer. */
  function Window(bars: seq<Bar>, lookback: int): (w: seq<Bar>)
    requires lookback >= 1
    ensures |w| == if |bars| < lookback then |bars| else lookback
    ensures w == bars[|bars| - |w|..]
  {
    var n := if |bars| < lookback then |bars| else lookback;
    bars[|bars| - n..]
  }

  /** `calculate_fibonacci_levels`. */
  function FibonacciLevels(bars: seq<Bar>, lookback: int): (f: Fibonacci)
    requires |bars| > 0 && lookback >= 1
    ensures f.rangeSize == f.high - f.low
    ensures |f.levels| == |Ratios|
    ensures f.levels[0] == ("0.0", f.high) && f.levels[|Ratios| - 1] == ("1.0", f.low)
  {
    var w := Window(bars, lookback);
    var high := Highest(Highs(w));
    var low := Lowest(Lows(w));
    var range := high - low;
    Fibonacci(high, low, range,
      [("0.0", high), ("0.236", high - range * 0.236), ("0.382", high - range * 0.382), ("0.5", high - range * 0.5),
       ("0.618", high - range * 0.618), ("0.786", high - range * 0.786), ("1.0", low)])
  }

  /** The high and the low are the extremes of the rows in the window. */
  lemma FibonacciExtremes(bars: seq<Bar>, lookback: int)
    requires |bars| > 0 && lookback >= 1
    ensures var w := Window(bars, lookback);
      var f := FibonacciLevels(bars, lookback);
      (exists i :: 0 <= i < |w| && w[i].high == f.high) && (forall i :: 0 <= i < |w| ==> w[i].high <= f.high)
      && (exists i :: 0 <= i < |w| && w[i].low == f.low) && (forall i :: 0 <= i < |w| ==> f.low <= w[i].low)
  {
    var w := Window(bars, lookback);
    var f := FibonacciLevels(bars, lookback);
    assert f.high == Highest(Highs(w)) && f.low == Lowest(Lows(w));
    WindowExtremes(w);
  }

  /** The highest high and the lowest low of some rows are attained by a row and bound every row. */
  lemma WindowExtremes(w: seq<Bar>)
    requires |w| > 0
    ensures (exists i :: 0 <= i < |w| && w[i].high == Highest(Highs(w))) && (forall i :: 0 <= i < |w| ==> w[i].high <= Highest(Highs(w)))
    ensures (exists i :: 0 <= i < |w| && w[i].low == Lowest(Lows(w))) && (forall i :: 0 <= i < |w| ==> Lowest(Lows(w)) <= w[i].low)
  {
    var hs, ls := Highs(w), Lows(w);
    var i :| 0 <= i < |hs| && hs[i] == Highest(hs);
    var j :| 0 <= j < |ls| && ls[j] == Lowest(ls);
    assert w[i].high == Highest(hs) && w[j].low == Lowest(ls);
  }

  /** Each level lies the ratio's share of the range below the high. */
  lemma LevelFormula(bars: seq<Bar>, lookback: int, i: nat)
    requires |bars| > 0 && lookback >= 1 && i < |Ratios|
    ensures var f := FibonacciLevels(bars, lookback);
      f.levels[i].0 == Ratios[i].0 && f.levels[i].1 == f.high - f.rangeSize * Ratios[i].1
  {
    var f := FibonacciLevels(bars, lookback);
    if i == 0 {
      assert f.rangeSize * 0.0 == 0.0;
    } else if i == |Ratios| - 1 {
      assert f.rangeSize * 1.0 == f.rangeSize;
    }
  }

  /** When no row's low is above its high, the levels fall from the high to the low as the ratio grows. */
  lemma LevelsDescend(bars: seq<Bar>, lookback: int, i: nat, j: nat)
    requires |bars| > 0 && lookback >= 1
    requires forall k :: 0 <= k < |bars| ==> bars[k].low <= bars[k].high
    requires i < j < |Ratios|
    ensures var f := FibonacciLevels(bars, lookback);
      f.high >= f.low && f.levels[j].1 <= f.levels[i].1
  {
    var f := FibonacciLevels(bars, lookback);
    var w := Window(bars, lookback);
    FibonacciExtremes(bars, lookback);
    LevelFormula(bars, lookback, i);
    LevelFormula(bars, lookback, j);
    assert w[0].low <= w[0].high;
    RatiosAscending();
    ScaleMonotone(Ratios[i].1, Ratios[j].1, f.rangeSize);
  }

  // ----------------------------------------------------------- nearest level

  /** The distance from the price to a level. */
  function Distance(price: real, level: (string, real)): real
  {
    Abs(price - level.1)
  }

  /**
   * The search for the level closest to the price: the first level at the
   * smallest distance, in the given order; none when there are no levels.
   */
  method NearestLevel(price: real, levels: seq<(string, real)>) returns (closest: Option<(string, real)>, minDistance: Option<real>)
    ensures closest.None? <==> |levels| == 0
    ensures closest.Some? ==> minDistance == Some(Distance(price, closest.value))
    ensures closest.Some? ==>
      (exists i :: 0 <= i < |levels| && levels[i] == closest.value
        && (forall j :: 0 <= j < |levels| ==> Distance(price, levels[i]) <= Distance(price, levels[j]))
        && (forall j :: 0 <= j < i ==> Distance(price, levels[j]) > Distance(price, levels[i])))
  {
    closest := None;
    minDistance := None;
    var best := 0;
    var k := 0;
    while k < |levels|
      invariant 0 <= k <= |levels|
      invariant closest.None? <==> k == 0
      invariant minDistance.None? <==> closest.None?
      invariant closest.Some? ==> best < k && closest.value == levels[best] && minDistance == Some(Distance(price, levels[best]))
      invariant closest.Some? ==> forall j :: 0 <= j < k ==> Distance(price, levels[best]) <= Distance(price, levels[j])
      invariant closest.Some? ==> forall j :: 0 <= j < best ==> Distance(price, levels[j]) > Distance(price, levels[best])
    {
      var distance := Distance(price, levels[k]);
      if minDistance.None? || distance < minDistance.value {
        minDistance := Some(distance);
        closest := Some(levels[k]);
        best := k;
      }
      k := k + 1;
    }
  }

  /** Where the price lies against a level in the list of levels. */
  function Position(price: real, value: real): (r: string)
    ensures r == "正好在" <==> price == value
    ensures r == "上方" <==> price > value
  {
    if price > value then "上方" else if price < value then "下方" else "正好在"
  }

  /** Where the price lies against the closest level in the analysis: a price on the level counts as below. */
  function RelativePosition(price: real, value: real): (r: string)
    ensures r == "上方" <==> price > value
  {
    if price > value then "上方" else "下方"
  }

  /** The two positions agree except for a price exactly on the level. */
  lemma PositionsAgree(price: real, value: real)
    ensures price != value ==> Position(price, value) == RelativePosition(price, value)
    ensures price == value ==> Position(price, value) == "正好在" && RelativePosition(price, value) == "下方"
  {
  }

  // ---------------------------------------------------------------- columns

  /** `str.capitalize()` on the ASCII range. */
  function Capitalize(s: string): (r: string)
    ensures |r| == |s|
  {
    if s == [] then [] else [UpperChar(s[0])] + Lower(s[1..])
  }

  /** The spellings tried for a price column: capitalized, upper case, title case (the same as capitalized for one word), and the two "price" forms. */
  function Variants(target: string): seq<string>
  {
    [Capitalize(target), Upper(target), Capitalize(target), Capitalize(target) + "Price", Upper(target) + "_PRICE"]
  }

  /** The first candidate that is a column. */
  function FirstIn(candidates: seq<string>, columns: seq<string>): (r: Option<string>)
    ensures r.Some? <==> exists i :: 0 <= i < |candidates| && candidates[i] in columns
    ensures r.Some? ==> r.value in columns && r.value in candidates
  {
    if candidates == [] then None
    else if candidates[0] in columns then Some(candidates[0])
    else
      var r := FirstIn(candidates[1..], columns);
      assert forall i :: 0 < i < |candidates| ==> candidates[i] == candidates[1..][i - 1];
      r
  }

  /** The column that stands for a price field: the field itself, else its first variant present. */
  function ColumnFor(target: string, columns: seq<string>): (r: Option<string>)
    ensures r.Some? ==> r.value in columns
    ensures target in columns ==> r == Some(target)
    ensures r.None? <==> !(target in columns) && forall i :: 0 <= i < 5 ==> !(Variants(target)[i] in columns)
  {
    if target in columns then Some(target) else FirstIn(Variants(target), columns)
  }

  /** `column_mapping`: the price fields found, in order, each with its column. */
  function MappingOf(targets: seq<string>, columns: seq<string>): (m: seq<(string, string)>)
  {
    if targets == [] then []
    else
      var init := MappingOf(targets[..|targets| - 1], columns);
      var t := targets[|targets| - 1];
      match ColumnFor(t, columns)
      case None => init
      case Some(c) => init + [(t, c)]
  }

  /** `missing_cols`: the price fields without a column, in order. */
  function MissingOf(targets: seq<string>, columns: seq<string>): (m: seq<string>)
  {
    if targets == [] then []
    else
      var last := targets[|targets| - 1];
      MissingOf(targets[..|targets| - 1], columns) + (if ColumnFor(last, columns).None? then [last] else [])
  }

  /** Every field is either mapped to a column that exists or reported missing, never both. */
  lemma {:induction false} MappingPartition(targets: seq<string>, columns: seq<string>, t: string)
    ensures t in targets && ColumnFor(t, columns).Some? ==> (t, ColumnFor(t, columns).value) in MappingOf(targets, columns)
    ensures t in MissingOf(targets, columns) <==> t in targets && ColumnFor(t, columns).None?
    ensures forall p :: p in MappingOf(targets, columns) ==> p.0 in targets && ColumnFor(p.0, columns) == Some(p.1) && p.1 in columns
    ensures |MappingOf(targets, columns)| + |MissingOf(targets, columns)| == |targets|
    decreases |targets|
  {
    if targets != [] {
      var init := targets[..|targets| - 1];
      var last := targets[|targets| - 1];
      MappingPartition(init, columns, t);
      assert t in targets <==> t in init || t == last;
      assert forall x :: x in init ==> x in targets;
    }
  }

  /** The loop that builds `column_mapping`. */
  method ColumnMapping(columns: seq<string>) returns (mapping: seq<(string, string)>)
    ensures mapping == MappingOf(OhlcColumns, columns)
  {
    mapping := [];
    var i := 0;
    while i < |OhlcColumns|
      invariant 0 <= i <= |OhlcColumns|
      invariant mapping == MappingOf(OhlcColumns[..i], columns)
    {
      assert OhlcColumns[..i + 1][..i] == OhlcColumns[..i];
      var target := OhlcColumns[i];
      if target in columns {
        mapping := mapping + [(target, target)];
      } else {
        var candidates := Variants(target);
        var j := 0;
        while j < |candidates|
          invariant 0 <= j <= |candidates|
          invariant FirstIn(candidates, columns) == FirstIn(candidates[j..], columns)
        {
          if candidates[j] in columns {
            break;
          }
          assert candidates[j..][1..] == candidates[j + 1..];
          j := j + 1;
        }
        if j < |candidates| {
          mapping := mapping + [(target, candidates[j])];
        }
      }
      i := i + 1;
    }
    assert OhlcColumns[..i] == OhlcColumns;
  }

  /** Python's `repr` of a list of strings. */
  function ListRepr(names: seq<string>): string
  {
    "[" + Join(seq(|names|, i requires 0 <= i < |names| => "'" + names[i] + "'"), ", ") + "]"
  }

  const MinRows := 20

  /**
   * The checks of `get_technical_data` on the frame: every price field must
   * have a column, and at least twenty rows must remain once the missing
   * values are handled.
   */
  function FrameCheck(columns: seq<string>, rows: nat): (r: Result<seq<(string, string)>>)
    ensures r.Ok? <==> (forall i :: 0 <= i < 4 ==> ColumnFor(OhlcColumns[i], columns).Some?) && rows >= MinRows
    ensures r.Ok? ==> r.value == MappingOf(OhlcColumns, columns) && |r.value| == 4
  {
    var missing := MissingOf(OhlcColumns, columns);
    AllMapped(columns);
    if missing != [] then Err("缺少必要的价格列: " + ListRepr(missing))
    else if rows < MinRows then Err("数据不足 (" + NatToString(rows) + " 行)，需要至少20行数据")
    else Ok(MappingOf(OhlcColumns, columns))
  }

  /** Nothing is missing exactly when every price field has a column, and then all four are mapped. */
  lemma AllMapped(columns: seq<string>)
    ensures MissingOf(OhlcColumns, columns) == [] <==> forall i :: 0 <= i < 4 ==> ColumnFor(OhlcColumns[i], columns).Some?
    ensures MissingOf(OhlcColumns, columns) == [] ==> |MappingOf(OhlcColumns, columns)| == 4
  {
    var missing := MissingOf(OhlcColumns, columns);
    MappingPartition(OhlcColumns, columns, "");
    if missing != [] {
      var t := missing[0];
      MappingPartition(OhlcColumns, columns, t);
      var i :| 0 <= i < 4 && OhlcColumns[i] == t;
      assert ColumnFor(OhlcColumns[i], columns).None?;
    } else {
      forall i | 0 <= i < 4 ensures ColumnFor(OhlcColumns[i], columns).Some? {
        MappingPartition(OhlcColumns, columns, OhlcColumns[i]);
      }
    }
  }

  /** Fields that are columns themselves map to themselves. */
  lemma {:induction false} SelfMapped(targets: seq<string>, columns: seq<string>)
    requires forall i :: 0 <= i < |targets| ==> targets[i] in columns
    ensures MappingOf(targets, columns) == seq(|targets|, i requires 0 <= i < |targets| => (targets[i], targets[i]))
    decreases |targets|
  {
    if targets != [] {
      var init := targets[..|targets| - 1];
      SelfMapped(init, columns);
    }
  }

  /** A frame with lower-case price columns passes the column check whatever else it holds. */
  lemma LowerCaseColumns(columns: seq<string>, rows: nat)
    requires forall i :: 0 <= i < 4 ==> OhlcColumns[i] in columns
    requires rows >= MinRows
    ensures FrameCheck(columns, rows) == Ok([("open", "open"), ("high", "high"), ("low", "low"), ("close", "close")])
  {
    SelfMapped(OhlcColumns, columns);
    forall i | 0 <= i < 4 ensures ColumnFor(OhlcColumns[i], columns).Some? {}
    assert seq(4, i requires 0 <= i < 4 => (OhlcColumns[i], OhlcColumns[i]))
      == [("open", "open"), ("high", "high"), ("low", "low"), ("close", "close")];
  }

  /** The part of `get_technical_data`'s result this model keeps. */
  datatype TechData = TechOk(mapping: seq<(string, string)>, rows: nat) | TechErr(error: Value)

  /**
   * `get_technical_data` up to the indicators: the date must parse, the
   * price data must parse, the frame (built by `frame` from the points,
   * which answers with its columns and the rows left after the missing
   * values are handled, or the text of its failure) must pass the checks.
   */
  function TechnicalData(currDate: string, priceResult: Value, decode: string -> Result<Value>,
                         frame: Value -> Result<(seq<string>, nat)>): (r: TechData)
  {
    if DateError(currDate).Some? then TechErr(Str(DateError(currDate).value))
    else
      match ParsePriceData(priceResult, decode)
      case Failed(e, _) => TechErr(e)
      case Points(p) =>
        match frame(p)
        case Err(m) => TechErr(Str("数据格式错误: " + m))
        case Ok(f) =>
          match FrameCheck(f.0, f.1)
          case Err(m) => TechErr(Str(m))
          case Ok(mapping) => TechOk(mapping, f.1)
  }

  /**
   * The indicators are computed exactly when the date parses, the price data
   * yields points, the frame can be built, and it has the four price columns
   * and at least twenty rows; the "no valid points" branch after a successful
   * parse is never taken.
   */
  lemma TechnicalDataSucceeds(currDate: string, priceResult: Value, decode: string -> Result<Value>,
                              frame: Value -> Result<(seq<string>, nat)>)
    ensures TechnicalData(currDate, priceResult, decode, frame).TechOk? <==>
      ParseDate(currDate).Some? && ParsePriceData(priceResult, decode).Points?
      && frame(ParsePriceData(priceResult, decode).points).Ok?
      && var f := frame(ParsePriceData(priceResult, decode).points).value;
         (forall i :: 0 <= i < 4 ==> ColumnFor(OhlcColumns[i], f.0).Some?) && f.1 >= MinRows
    ensures ParsePriceData(priceResult, decode).Points? ==> Truthy(ParsePriceData(priceResult, decode).points)
    ensures TechnicalData(currDate, priceResult, decode, frame).TechOk? ==>
      TechnicalData(currDate, priceResult, decode, frame).rows >= MinRows
      && |TechnicalData(currDate, priceResult, decode, frame).mapping| == 4
  {
  }

  // ------------------------------------------------------------- indicators

  /** The latest value of each indicator column. */
  type Latest = seq<(string, real)>

  const RsiOversold := "- **信号**: \U{1F534} 超卖区域 (可能反弹)"
  const RsiOverbought := "- **信号**: \U{1F7E2} 超买区域 (可能回调)"
  const RsiNormal := "- **信号**: \U{26AA} 正常范围"

  /** The RSI signal: below 30 oversold, above 70 overbought, normal otherwise. */
  function RsiAdvice(v: real): (r: seq<string>)
    ensures |r| == 2
    ensures r[0] == RsiOversold <==> v < 30.0
    ensures r[0] == RsiOverbought <==> v > 70.0
    ensures r[0] == RsiNormal <==> 30.0 <= v <= 70.0
  {
    assert RsiOversold[10] != RsiOverbought[10] && RsiOversold[10] != RsiNormal[10] && RsiOverbought[10] != RsiNormal[10];
    if v < 30.0 then [RsiOversold, "- **建议**: 考虑买入机会"]
    else if v > 70.0 then [RsiOverbought, "- **建议**: 考虑卖出机会"]
    else [RsiNormal, "- **建议**: 观望或结合其他指标"]
  }

  const Golden := "- **信号**: \U{1F7E2} 金叉信号 (看涨)"

  /** The MACD signal: a golden cross exactly when the MACD line is above its signal line. */
  function MacdAdvice(macd: real, signal: real): (r: seq<string>)
    ensures |r| == 2 && (r[0] == Golden <==> macd > signal)
  {
    assert Golden[10] != "- **信号**: \U{1F534} 死叉信号 (看跌)"[10];
    if macd > signal then [Golden, "- **建议**: 考虑做多"] else ["- **信号**: \U{1F534} 死叉信号 (看跌)", "- **建议**: 考虑做空"]
  }

  const NearLower := "- **信号**: \U{1F7E2} 接近下轨 (可能反弹)"
  const NearUpper := "- **信号**: \U{1F534} 接近上轨 (可能回调)"

  /** The Bollinger signal: near the lower band below 0.2, near the upper band above 0.8, in the middle otherwise. */
  function BandAdvice(position: real): (r: seq<string>)
    ensures |r| == 2
    ensures r[0] == NearLower <==> position < 0.2
    ensures r[0] == NearUpper <==> position > 0.8
  {
    assert NearLower[10] != NearUpper[10] && NearLower[10] != "- **信号**: \U{26AA} 中轨附近"[10] && NearUpper[10] != "- **信号**: \U{26AA} 中轨附近"[10];
    if position < 0.2 then [NearLower, "- **建议**: 潜在买入机会"]
    else if position > 0.8 then [NearUpper, "- **建议**: 潜在卖出机会"]
    else ["- **信号**: \U{26AA} 中轨附近", "- **建议**: 观望"]
  }

  /** A three-way level: 高 above `high`, 中等 above `medium`, 低 otherwise. */
  function Level(x: real, high: real, medium: real): (r: string)
    requires medium <= high
    ensures r == "高" <==> x > high
    ensures r == "低" <==> x <= medium
  {
    if x > high then "高" else if x > medium then "中等" else "低"
  }

  const StochOversold := "- **信号**: \U{1F7E2} 超卖区域 (可能反弹)"
  const StochOverbought := "- **信号**: \U{1F534} 超买区域 (可能回调)"

  /** The stochastic signal: oversold when both lines are below 20, overbought when both are above 80. */
  function StochAdvice(k: real, d: real): (r: seq<string>)
    ensures |r| == 2
    ensures r[0] == StochOversold <==> k < 20.0 && d < 20.0
    ensures r[0] == StochOverbought <==> k > 80.0 && d > 80.0
  {
    assert StochOversold[10] != StochOverbought[10] && StochOversold[10] != "- **信号**: \U{26AA} 正常范围"[10]
      && StochOverbought[10] != "- **信号**: \U{26AA} 正常范围"[10];
    if k < 20.0 && d < 20.0 then [StochOversold, "- **建议**: 考虑买入"]
    else if k > 80.0 && d > 80.0 then [StochOverbought, "- **建议**: 考虑卖出"]
    else ["- **信号**: \U{26AA} 正常范围", "- **建议**: 观望"]
  }

  /** The lines of the RSI section. */
  function RsiLines(v: real, fmt: (real, nat) -> string): seq<string>
  {
    ["- **当前值**: " + fmt(v, 2)] + RsiAdvice(v) + ["- **说明**: 14周期相对强弱指数，衡量价格动量"]
  }

  /** The lines of the MACD section, the histogram when it is known. */
  function MacdLines(latest: Latest, fmt: (real, nat) -> string): seq<string>
  {
    var m := GetOr(latest, "MACD", 0.0);
    var sg := GetOr(latest, "MACD_Signal", 0.0);
    var h := GetOr(latest, "MACD_Histogram", 0.0);
    ["- **MACD线**: " + fmt(m, 6), "- **信号线**: " + fmt(sg, 6), "- **差值**: " + fmt(m - sg, 6)]
    + MacdAdvice(m, sg)
    + (if HasKey(latest, "MACD_Histogram") then ["- **柱状图**: " + fmt(h, 6), "- **动量**: " + (if h > 0.0 then "增强" else "减弱")] else [])
    + ["- **说明**: 趋势动量指标"]
  }

  /**
   * The SMA section. A zero average makes the distance a division by zero,
   * which the section swallows after its first line: the indicator then
   * counts as not found.
   */
  function SmaLines(period: string, v: real, price: real, fmt: (real, nat) -> string): (r: (seq<string>, bool))
    ensures r.1 <==> v != 0.0
  {
    var first := "- **" + period + "周期SMA**: " + fmt(v, 6);
    if v == 0.0 then ([first], false)
    else
      ([first, "- **与当前价关系**: 当前价在SMA" + RelativePosition(price, v) + " (" + fmt(Abs(price - v) / v * 100.0, 2) + "%)",
        if price > v then "- **信号**: \U{1F7E2} 看涨趋势" else "- **信号**: \U{1F534} 看跌趋势",
        "- **说明**: 简单移动平均线，趋势方向指标"], true)
  }

  /** The lines of the EMA section. */
  function EmaLines(period: string, v: real, price: real, fmt: (real, nat) -> string): seq<string>
  {
    ["- **" + period + "周期EMA**: " + fmt(v, 6), "- **与当前价关系**: 当前价在EMA" + RelativePosition(price, v),
     "- **说明**: 指数移动平均线，对近期价格更敏感"]
  }

  /** The lines of the Bollinger section; `.2%` is the position times 100 with two places and a percent sign. */
  function BandLines(latest: Latest, fmt: (real, nat) -> string): seq<string>
  {
    var pos := GetOr(latest, "BB_Position", 0.0);
    var width := GetOr(latest, "BB_Width", 0.0);
    ["- **上轨**: " + fmt(GetOr(latest, "BB_Upper", 0.0), 6), "- **中轨**: " + fmt(GetOr(latest, "BB_Middle", 0.0), 6),
     "- **下轨**: " + fmt(GetOr(latest, "BB_Lower", 0.0), 6)]
    + (if HasKey(latest, "BB_Position") then ["- **位置**: " + fmt(pos * 100.0, 2) + "%"] + BandAdvice(pos) else [])
    + (if HasKey(latest, "BB_Width") then ["- **带宽**: " + fmt(width, 4), "- **波动率**: " + Level(width, 0.05, 0.02)] else [])
    + ["- **说明**: 波动率和价格位置指标"]
  }

  /** The lines of the stochastic section. */
  function StochLines(k: real, d: real, fmt: (real, nat) -> string): seq<string>
  {
    ["- **%K线**: " + fmt(k, 2), "- **%D线**: " + fmt(d, 2)] + StochAdvice(k, d) + ["- **说明**: 动量振荡器，超买超卖指标"]
  }

  /** The lines of the ATR section; the price must not be zero. */
  function AtrLines(v: real, price: real, fmt: (real, nat) -> string): seq<string>
    requires price != 0.0
  {
    var pct := v / price * 100.0;
    ["- **ATR值**: " + fmt(v, 6), "- **波动率**: " + Level(pct, 1.0, 0.5) + " (" + fmt(pct, 2) + "%)",
     "- **说明**: 平均真实波幅，衡量价格波动性"]
  }

  /** The lines of a request nothing matches. */
  function NotFoundLines(indicator: string, latest: Latest): seq<string>
  {
    ["- **状态**: \U{26A0}\U{FE0F} 指标 '" + indicator + "' 未找到或不可用",
     "- **可用指标**: " + Join(SortStrings(Keys(latest)), ", ")]
  }

  /** The request as it is matched: lower case, stripped. */
  function Normal(indicator: string): string
  {
    Strip(Lower(indicator))
  }

  /** Which rule a request falls under, tried in order; SMA and EMA carry the period after the prefix. */
  datatype Kind = Rsi | Macd | Sma(period: string) | Ema(period: string) | Bands | Stochastic | Atr | Unknown

  function KindOf(indicator: string): (k: Kind)
    ensures k.Sma? <==> StartsWith(Normal(indicator), "sma_")
    ensures k.Sma? ==> k.period == Replace(Normal(indicator), "sma_", "")
    ensures k.Ema? ==> k.period == Replace(Normal(indicator), "ema_", "")
  {
    var low := Normal(indicator);
    if low == "rsi" then Rsi
    else if low == "macd" then Macd
    else if StartsWith(low, "sma_") then Sma(Replace(low, "sma_", ""))
    else if StartsWith(low, "ema_") then Ema(Replace(low, "ema_", ""))
    else if low == "bollinger" || low == "bb" then Bands
    else if low == "stoch" || low == "stochastic" then Stochastic
    else if low == "atr" then Atr
    else Unknown
  }

  /** Whether a request finds its indicator: the columns its rule needs are there (and an SMA is not zero). */
  predicate Found(indicator: string, latest: Latest)
  {
    match KindOf(indicator)
    case Rsi => HasKey(latest, "RSI")
    case Macd => HasKey(latest, "MACD") && HasKey(latest, "MACD_Signal")
    case Sma(p) => HasKey(latest, "SMA_" + p) && GetOr(latest, "SMA_" + p, 0.0) != 0.0
    case Ema(p) => HasKey(latest, "EMA_" + p)
    case Bands => HasKey(latest, "BB_Upper") && HasKey(latest, "BB_Middle") && HasKey(latest, "BB_Lower")
    case Stochastic => HasKey(latest, "Stoch_K") && HasKey(latest, "Stoch_D")
    case Atr => HasKey(latest, "ATR")
    case Unknown => false
  }

  /** The ATR section divides by the price: the one request that makes the whole tool fail. */
  predicate AtrFails(indicator: string, latest: Latest, price: real)
  {
    KindOf(indicator) == Atr && HasKey(latest, "ATR") && price == 0.0
  }

  /** Python's message for a float division by zero. */
  const DivisionByZero := "float division by zero"

  /**
   * The section of one request, without its heading and its closing blank
   * line, and whether it was found. An "rsi" request without an RSI column
   * falls through every later rule and is reported as unknown.
   */
  function Section(indicator: string, latest: Latest, price: real, fmt: (real, nat) -> string): (r: Result<(seq<string>, bool)>)
    ensures r.Err? <==> AtrFails(indicator, latest, price)
    ensures r.Err? ==> r.msg == DivisionByZero
    ensures r.Ok? ==> (r.value.1 <==> Found(indicator, latest))
  {
    match KindOf(indicator)
    case Rsi =>
      if HasKey(latest, "RSI") then Ok((RsiLines(GetOr(latest, "RSI", 0.0), fmt), true)) else Ok((NotFoundLines(indicator, latest), false))
    case Macd =>
      if HasKey(latest, "MACD") && HasKey(latest, "MACD_Signal") then Ok((MacdLines(latest, fmt), true)) else Ok(([], false))
    case Sma(p) =>
      if HasKey(latest, "SMA_" + p) then Ok(SmaLines(p, GetOr(latest, "SMA_" + p, 0.0), price, fmt)) else Ok(([], false))
    case Ema(p) =>
      if HasKey(latest, "EMA_" + p) then Ok((EmaLines(p, GetOr(latest, "EMA_" + p, 0.0), price, fmt), true)) else Ok(([], false))
    case Bands =>
      if HasKey(latest, "BB_Upper") && HasKey(latest, "BB_Middle") && HasKey(latest, "BB_Lower") then Ok((BandLines(latest, fmt), true))
      else Ok(([], false))
    case Stochastic =>
      if HasKey(latest, "Stoch_K") && HasKey(latest, "Stoch_D") then
        Ok((StochLines(GetOr(latest, "Stoch_K", 0.0), GetOr(latest, "Stoch_D", 0.0), fmt), true))
      else Ok(([], false))
    case Atr =>
      if !HasKey(latest, "ATR") then Ok(([], false))
      else if price == 0.0 then Err(DivisionByZero)
      else Ok((AtrLines(GetOr(latest, "ATR", 0.0), price, fmt), true))
    case Unknown => Ok((NotFoundLines(indicator, latest), false))
  }

  /** How many requests find their indicator. */
  function CountFound(indicators: seq<string>, latest: Latest): (n: nat)
    ensures n <= |indicators|
    ensures n == 0 <==> forall i :: 0 <= i < |indicators| ==> !Found(indicators[i], latest)
  {
    if indicators == [] then 0
    else
      var init := indicators[..|indicators| - 1];
      assert forall i :: 0 <= i < |init| ==> init[i] == indicators[i];
      CountFound(init, latest) + (if Found(indicators[|indicators| - 1], latest) then 1 else 0)
  }

  /** One section under its heading, closed by a blank line. */
  function Headed(indicator: string, body: seq<string>): seq<string>
  {
    ["## \U{1F527} " + Upper(indicator) + " 指标"] + body + [""]
  }

  /** The section of every request, each computed on its own. */
  function SectionsOf(indicators: seq<string>, latest: Latest, price: real, fmt: (real, nat) -> string)
    : (secs: seq<Result<(seq<string>, bool)>>)
    ensures |secs| == |indicators|
    ensures forall i :: 0 <= i < |indicators| ==> secs[i] == Section(indicators[i], latest, price, fmt)
  {
    seq(|indicators|, i requires 0 <= i < |indicators| => Section(indicators[i], latest, price, fmt))
  }

  /** The sections under their headings in order, with the number found; the first failing section fails them all. */
  function Combine(indicators: seq<string>, secs: seq<Result<(seq<string>, bool)>>): (r: Result<(seq<string>, nat)>)
    requires |secs| == |indicators|
  {
    var none: (seq<string>, nat) := ([], 0);
    if indicators == [] then Ok(none)
    else
      match Combine(indicators[..|indicators| - 1], secs[..|secs| - 1])
      case Err(e) => Err(e)
      case Ok(done) =>
        match secs[|secs| - 1]
        case Err(e) => Err(e)
        case Ok(sec) =>
          var next: (seq<string>, nat) := (done.0 + Headed(indicators[|indicators| - 1], sec.0), done.1 + if sec.1 then 1 else 0);
          Ok(next)
  }

  /** How many of the sections are found. */
  function FoundIn(secs: seq<Result<(seq<string>, bool)>>): nat
  {
    if secs == [] then 0 else FoundIn(secs[..|secs| - 1]) + if secs[|secs| - 1].Ok? && secs[|secs| - 1].value.1 then 1 else 0
  }

  /** The combination fails exactly when one of the sections does, and otherwise counts those found. */
  lemma {:induction false} CombineFacts(indicators: seq<string>, secs: seq<Result<(seq<string>, bool)>>)
    requires |secs| == |indicators|
    ensures Combine(indicators, secs).Err? <==> exists i :: 0 <= i < |secs| && secs[i].Err?
    ensures Combine(indicators, secs).Ok? ==> Combine(indicators, secs).value.1 == FoundIn(secs)
  {
    if indicators != [] {
      var init := secs[..|secs| - 1];
      CombineFacts(indicators[..|indicators| - 1], init);
      assert forall i :: 0 <= i < |init| ==> init[i] == secs[i];
    }
  }

  /** Counting the found sections is counting the requests whose indicator is found. */
  lemma {:induction false} FoundInCounts(indicators: seq<string>, latest: Latest, price: real, fmt: (real, nat) -> string)
    requires forall i :: 0 <= i < |indicators| ==> !AtrFails(indicators[i], latest, price)
    ensures FoundIn(SectionsOf(indicators, latest, price, fmt)) == CountFound(indicators, latest)
  {
    if indicators != [] {
      var init := indicators[..|indicators| - 1];
      var secs := SectionsOf(indicators, latest, price, fmt);
      assert SectionsOf(init, latest, price, fmt) == secs[..|secs| - 1];
      FoundInCounts(init, latest, price, fmt);
    }
  }

  /** The sections of the requests in order, with the number found. */
  function Sections(indicators: seq<string>, latest: Latest, price: real, fmt: (real, nat) -> string): (r: Result<(seq<string>, nat)>)
  {
    Combine(indicators, SectionsOf(indicators, latest, price, fmt))
  }

  /**
   * The sections fail exactly when some request is an ATR request at a zero
   * price, and otherwise count exactly the requests whose indicator is found.
   */
  lemma SectionsFacts(indicators: seq<string>, latest: Latest, price: real, fmt: (real, nat) -> string)
    ensures Sections(indicators, latest, price, fmt).Err? <==> exists i :: 0 <= i < |indicators| && AtrFails(indicators[i], latest, price)
    ensures Sections(indicators, latest, price, fmt).Ok? ==> Sections(indicators, latest, price, fmt).value.1 == CountFound(indicators, latest)
  {
    var secs := SectionsOf(indicators, latest, price, fmt);
    CombineFacts(indicators, secs);
    if Sections(indicators, latest, price, fmt).Ok? {
      FoundInCounts(indicators, latest, price, fmt);
    }
  }

  /** What the tool reads from `get_technical_data` on success. */
  datatype TechSummary = TechSummary(currentPrice: real, latest: Latest, dataPoints: nat, dateRange: string, simulated: bool)

  function IndicatorsHeader(symbol: string, indicators: seq<string>, endDate: string, lookBackDays: int, t: TechSummary,
                            fmt: (real, nat) -> string): seq<string>
  {
    ["# \U{1F4CA} 技术指标计算 - " + symbol, "**结束日期**: " + endDate + " | **回溯天数**: " + IntToString(lookBackDays),
     "**当前价格**: " + fmt(t.currentPrice, 6), "**数据来源**: " + (if t.simulated then "模拟数据" else "真实数据"),
     "**请求指标**: " + Join(indicators, ", "), ""]
  }

  /** One line per available indicator, in sorted order. */
  function AvailableLines(keys: seq<string>, latest: Latest, fmt: (real, nat) -> string): (r: seq<string>)
    ensures |r| == |keys|
  {
    if keys == [] then []
    else AvailableLines(keys[..|keys| - 1], latest, fmt) + ["- " + keys[|keys| - 1] + ": " + fmt(GetOr(latest, keys[|keys| - 1], 0.0), 6)]
  }

  /** When nothing requested was found, every available indicator with its value, in sorted order. */
  function Fallback(found: nat, latest: Latest, fmt: (real, nat) -> string): seq<string>
  {
    if found == 0 then ["## \U{26A0}\U{FE0F} 未找到请求的指标", "可用的指标包括:"] + AvailableLines(SortStrings(Keys(latest)), latest, fmt) + [""]
    else []
  }

  function IndicatorsFooter(found: nat, requested: nat, t: TechSummary): seq<string>
  {
    ["## \U{1F4A1} 综合分析建议", "- **找到指标**: " + NatToString(found) + "/" + NatToString(requested),
     "- **建议**: 结合多个指标确认交易信号", "- **注意**: 考虑不同时间框架的指标一致性", "- **风险**: 使用ATR设置止损水平", "",
     "## \U{1F4CA} 数据质量", "- **数据点**: " + NatToString(t.dataPoints), "- **数据期间**: " + t.dateRange,
     "- **数据来源**: " + (if t.simulated then "模拟数据 - 仅用于测试" else "真实数据")]
  }

  /**
   * `get_indicators`: `tech` is the outcome of `get_technical_data` (its
   * error text on failure) and `fmt(x, d)` the text of `x` with d places.
   */
  function IndicatorsReport(symbol: string, indicators: seq<string>, endDate: string, lookBackDays: int,
                            tech: Result<TechSummary>, fmt: (real, nat) -> string): string
  {
    match tech
    case Err(e) => "\U{274C} 无法获取 " + symbol + " 数据: " + e
    case Ok(t) =>
      match Sections(indicators, t.latest, t.currentPrice, fmt)
      case Err(e) => "\U{274C} 技术指标计算失败: " + e
      case Ok(body) =>
        Join(IndicatorsHeader(symbol, indicators, endDate, lookBackDays, t, fmt) + body.0 + Fallback(body.1, t.latest, fmt)
             + IndicatorsFooter(body.1, |indicators|, t), "\n")
  }

  /** The report counts exactly the requests whose indicator is found, never more than were requested. */
  lemma FoundCounted(indicators: seq<string>, t: TechSummary, fmt: (real, nat) -> string)
    requires !exists i :: 0 <= i < |indicators| && AtrFails(indicators[i], t.latest, t.currentPrice)
    ensures Sections(indicators, t.latest, t.currentPrice, fmt).Ok?
    ensures var n := Sections(indicators, t.latest, t.currentPrice, fmt).value.1;
      n == CountFound(indicators, t.latest) && n <= |indicators|
  {
    SectionsFacts(indicators, t.latest, t.currentPrice, fmt);
  }

  /** A request for the RSI with a known RSI is always found, and its signal follows the thresholds. */
  lemma RsiRule(indicator: string, latest: Latest, price: real, fmt: (real, nat) -> string)
    requires Normal(indicator) == "rsi" && HasKey(latest, "RSI")
    ensures var r := Section(indicator, latest, price, fmt);
      var v := GetOr(latest, "RSI", 0.0);
      r.Ok? && r.value.1 && r.value.0[1] == (if v < 30.0 then RsiOversold else if v > 70.0 then RsiOverbought else RsiNormal)
  {
  }

  /** An ATR request at a zero price makes the sections fail with the division by zero. */
  lemma ZeroPriceFails(indicators: seq<string>, latest: Latest, price: real, fmt: (real, nat) -> string, i: nat)
    requires i < |indicators| && AtrFails(indicators[i], latest, price)
    ensures Sections(indicators, latest, price, fmt) == Err(DivisionByZero)
  {
    SectionsFacts(indicators, latest, price, fmt);
    FirstErr(indicators, SectionsOf(indicators, latest, price, fmt));
  }

  /** A failing section replaces the whole report by the failure message. */
  lemma FailureReported(symbol: string, indicators: seq<string>, endDate: string, lookBackDays: int, t: TechSummary,
                        fmt: (real, nat) -> string)
    requires Sections(indicators, t.latest, t.currentPrice, fmt).Err?
    ensures IndicatorsReport(symbol, indicators, endDate, lookBackDays, Ok(t), fmt)
      == "\U{274C} 技术指标计算失败: " + Sections(indicators, t.latest, t.currentPrice, fmt).msg
  {
  }

  /** The error a combination fails with is that of its first failing section; here that is always the ATR division. */
  lemma {:induction false} FirstErr(indicators: seq<string>, secs: seq<Result<(seq<string>, bool)>>)
    requires |secs| == |indicators|
    requires forall i :: 0 <= i < |secs| && secs[i].Err? ==> secs[i].msg == DivisionByZero
    ensures Combine(indicators, secs).Err? ==> Combine(indicators, secs).msg == DivisionByZero
  {
    if indicators != [] {
      var init := secs[..|secs| - 1];
      assert forall i :: 0 <= i < |init| ==> init[i] == secs[i];
      FirstErr(indicators[..|indicators| - 1], init);
    }
  }

  /** The loop over the requests. */
  method IndicatorSections(indicators: seq<string>, latest: Latest, price: real, fmt: (real, nat) -> string)
    returns (r: Result<(seq<string>, nat)>)
    ensures r == Sections(indicators, latest, price, fmt)
  {
    ghost var secs := SectionsOf(indicators, latest, price, fmt);
    var lines: seq<string> := [];
    var found: nat := 0;
    var i := 0;
    while i < |indicators|
      invariant 0 <= i <= |indicators|
      invariant Combine(indicators[..i], secs[..i]) == Ok((lines, found))
    {
      var section := Section(indicators[i], latest, price, fmt);
      assert section == secs[i];
      CombineStep(indicators, secs, i);
      if section.Err? {
        CombineErrStays(indicators, secs, i + 1);
        return Err(section.msg);
      }
      ghost var next := Combine(indicators[..i + 1], secs[..i + 1]);
      lines := lines + Headed(indicators[i], section.value.0);
      if section.value.1 {
        found := found + 1;
      }
      assert next == Ok((lines, found));
      i := i + 1;
    }
    WholePrefix(indicators);
    WholePrefix(secs);
    r := Ok((lines, found));
  }

  /** One more section: it fails the combination, or is appended under its heading and counted when found. */
  lemma CombineStep(indicators: seq<string>, secs: seq<Result<(seq<string>, bool)>>, i: nat)
    requires |secs| == |indicators| && i < |indicators| && Combine(indicators[..i], secs[..i]).Ok?
    ensures var done := Combine(indicators[..i], secs[..i]).value;
      Combine(indicators[..i + 1], secs[..i + 1])
      == if secs[i].Err? then Err(secs[i].msg)
         else Ok((done.0 + Headed(indicators[i], secs[i].value.0), done.1 + if secs[i].value.1 then 1 else 0))
  {
    assert indicators[..i + 1][..i] == indicators[..i] && secs[..i + 1][..i] == secs[..i];
  }

  /** The first failing section decides the error of every longer combination. */
  lemma {:induction false} CombineErrStays(indicators: seq<string>, secs: seq<Result<(seq<string>, bool)>>, j: nat)
    requires |secs| == |indicators| && j <= |indicators| && Combine(indicators[..j], secs[..j]).Err?
    ensures Combine(indicators, secs) == Combine(indicators[..j], secs[..j])
    decreases |indicators| - j
  {
    if j < |indicators| {
      var p := indicators[..j + 1];
      var q := secs[..j + 1];
      assert p[..|p| - 1] == indicators[..j] && q[..|q| - 1] == secs[..j];
      CombineErrStays(indicators, secs, j + 1);
    } else {
      assert indicators[..j] == indicators && secs[..j] == secs;
    }
  }

  /** The fallback listing, one line per key. */
  method ListAvailable(keys: seq<string>, latest: Latest, fmt: (real, nat) -> string) returns (available: seq<string>)
    ensures available == AvailableLines(keys, latest, fmt)
  {
    available := [];
    var k := 0;
    while k < |keys|
      invariant 0 <= k <= |keys|
      invariant available == AvailableLines(keys[..k], latest, fmt)
    {
      assert keys[..k + 1][..k] == keys[..k];
      available := available + ["- " + keys[k] + ": " + fmt(GetOr(latest, keys[k], 0.0), 6)];
      k := k + 1;
    }
    assert keys[..k] == keys;
  }

  /** `get_indicators`, with its loops. */
  method GetIndicators(symbol: string, indicators: seq<string>, endDate: string, lookBackDays: int,
                       tech: Result<TechSummary>, fmt: (real, nat) -> string) returns (report: string)
    ensures report == IndicatorsReport(symbol, indicators, endDate, lookBackDays, tech, fmt)
  {
    if tech.Err? {
      return "\U{274C} 无法获取 " + symbol + " 数据: " + tech.msg;
    }
    var t := tech.value;
    var sections := IndicatorSections(indicators, t.latest, t.currentPrice, fmt);
    if sections.Err? {
      return "\U{274C} 技术指标计算失败: " + sections.msg;
    }
    var found := sections.value.1;
    var fallback: seq<string> := [];
    if found == 0 {
      var available := ListAvailable(SortStrings(Keys(t.latest)), t.latest, fmt);
      fallback := ["## \U{26A0}\U{FE0F} 未找到请求的指标", "可用的指标包括:"] + available + [""];
    }
    assert fallback == Fallback(found, t.latest, fmt);
    var lines := IndicatorsHeader(symbol, indicators, endDate, lookBackDays, t, fmt) + sections.value.0 + fallback
      + IndicatorsFooter(found, |indicators|, t);
    report := Join(lines, "\n");
  }
}
