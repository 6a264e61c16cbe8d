// Model of mock_backtest_demo_fixed.py: the moving-average crossover signal
// and the pairing of buy and sell rows into trades in `analyze_trades`.

module MockBacktest {
  import opened Common

  // ------------------------------------------------------------ signal

  /** `rolling(window=w, min_periods=1).mean()` at row i: the mean of the last (up to) w closes. */
  function RollingMean(closes: seq<real>, w: nat, i: nat): real
    requires w >= 1 && i < |closes|
  {
    var lo := if i + 1 >= w then i + 1 - w else 0;
    Mean(closes[lo..i + 1])
  }

  /** The `Signal` column: 1 where the short average is above the long one, else 0. */
  function Signals(closes: seq<real>, short: nat, long: nat): (r: seq<int>)
    requires short >= 1 && long >= 1
    ensures |r| == |closes|
    ensures forall i :: 0 <= i < |r| ==> r[i] == 0 || r[i] == 1
    ensures forall i :: 0 <= i < |r| ==> (r[i] == 1 <==> RollingMean(closes, short, i) > RollingMean(closes, long, i))
  {
    seq(|closes|, i requires 0 <= i < |closes| => if RollingMean(closes, short, i) > RollingMean(closes, long, i) then 1 else 0)
  }

  /** The `Position` column, `Signal.diff()`: no value on the first row (NaN), then the change. */
  function Positions(signals: seq<int>): (r: seq<Option<int>>)
    ensures |r| == |signals|
    ensures |r| > 0 ==> r[0] == None
    ensures forall i :: 0 < i < |r| ==> r[i] == Some(signals[i] - signals[i - 1])
  {
    seq(|signals|, i requires 0 <= i < |signals| => if i == 0 then None else Some(signals[i] - signals[i - 1]))
  }

  /** A buy row is exactly one where the short average crosses above the long one; a sell row, below. */
  lemma PositionCrossings(closes: seq<real>, short: nat, long: nat, i: nat)
    requires short >= 1 && long >= 1 && 0 < i < |closes|
    ensures var s := Signals(closes, short, long);
      var p := Positions(s)[i].value;
      (p > 0 <==> s[i - 1] == 0 && s[i] == 1) && (p < 0 <==> s[i - 1] == 1 && s[i] == 0) && -1 <= p <= 1
  {
    var s := Signals(closes, short, long);
    assert s[i] == 0 || s[i] == 1;
    assert s[i - 1] == 0 || s[i - 1] == 1;
  }

  /** One row of the strategy frame. */
  datatype Row = Row(date: int, close: real, position: Option<int>)

  /** `simple_moving_average_strategy`: the rows with their positions. */
  function StrategyRows(dates: seq<int>, closes: seq<real>, short: nat, long: nat): (r: seq<Row>)
    requires |dates| == |closes| && short >= 1 && long >= 1
    ensures |r| == |closes|
    ensures forall i :: 0 <= i < |r| ==> r[i].date == dates[i] && r[i].close == closes[i]
  {
    var p := Positions(Signals(closes, short, long));
    seq(|closes|, i requires 0 <= i < |closes| => Row(dates[i], closes[i], p[i]))
  }

  // ------------------------------------------------------------ trades

  /** One closed trade of `analyze_trades`. */
  datatype TradeRecord = TradeRecord(entry: int, exit: int, entryPrice: real, exitPrice: real,
                                     returnsPct: real, holdingDays: int)

  /** The loop state: the `in_position` flag, the open entry, and the closed trades. */
  datatype Scan = Scan(inPosition: bool, entryPrice: real, entryDate: int, records: seq<TradeRecord>)

  const Start := Scan(false, 0.0, 0, [])

  predicate Positive(rows: seq<Row>)
  {
    forall i :: 0 <= i < |rows| ==> rows[i].close > 0.0
  }

  predicate IsBuy(r: Row) { r.position.Some? && r.position.value > 0 }

  predicate IsSell(r: Row) { r.position.Some? && r.position.value < 0 }

  /** One row of the loop: a buy opens only when flat, a sell closes only when in position. */
  function Step(s: Scan, row: Row): Scan
    requires s.inPosition ==> s.entryPrice > 0.0
  {
    if IsBuy(row) && !s.inPosition then Scan(true, row.close, row.date, s.records)
    else if IsSell(row) && s.inPosition then
      var pct := (row.close / s.entryPrice - 1.0) * 100.0;
      Scan(false, s.entryPrice, s.entryDate,
           s.records + [TradeRecord(s.entryDate, row.date, s.entryPrice, row.close, pct, row.date - s.entryDate)])
    else s
  }

  /** The loop state after the given rows; an open entry always has a positive price. */
  function Pairing(rows: seq<Row>): (s: Scan)
    requires Positive(rows)
    decreases |rows|
    ensures s.inPosition ==> s.entryPrice > 0.0
  {
    if |rows| == 0 then Start
    else
      var n := |rows| - 1;
      assert Positive(rows[..n]);
      Step(Pairing(rows[..n]), rows[n])
  }

  /** `df[df['Position'] != 0]` is empty: every row has a zero position (a NaN row counts as non-zero). */
  predicate AllFlat(rows: seq<Row>)
  {
    forall i :: 0 <= i < |rows| ==> rows[i].position == Some(0)
  }

  function Returns(records: seq<TradeRecord>): (r: seq<real>)
    ensures |r| == |records| && forall k :: 0 <= k < |r| ==> r[k] == records[k].returnsPct
  {
    seq(|records|, k requires 0 <= k < |records| => records[k].returnsPct)
  }

  /** The number of trades with a positive return. */
  function Winners(records: seq<TradeRecord>): (n: nat)
    ensures n <= |records|
  {
    if |records| == 0 then 0
    else Winners(records[..|records| - 1]) + (if records[|records| - 1].returnsPct > 0.0 then 1 else 0)
  }

  /** `win_rate` and `avg_return`: zero without trades. */
  function Summary(records: seq<TradeRecord>): (r: (real, real))
    ensures |records| == 0 ==> r == (0.0, 0.0)
    ensures |records| > 0 ==> r.0 * |records| as real == Winners(records) as real * 100.0
    ensures 0.0 <= r.0 <= 100.0
  {
    if |records| == 0 then (0.0, 0.0)
    else
      var n := |records| as real;
      var w := Winners(records) as real;
      assert 0.0 <= w <= n;
      WinShare(w, n);
      (w / n * 100.0, Mean(Returns(records)))
  }

  lemma WinShare(w: real, n: real)
    requires 0.0 <= w <= n && n > 0.0
    ensures 0.0 <= w / n * 100.0 <= 100.0 && w / n * 100.0 * n == w * 100.0
  {
    DivBounds(w, n, 0.0, 1.0);
  }

  /** `len([t for t in trade_records if t['Returns_%'] > 0])`. */
  method CountWinners(records: seq<TradeRecord>) returns (winners: nat)
    ensures winners == Winners(records)
  {
    winners := 0;
    var k := 0;
    while k < |records|
      invariant k <= |records| && winners == Winners(records[..k])
    {
      assert records[..k + 1][..k] == records[..k];
      if records[k].returnsPct > 0.0 {
        winners := winners + 1;
      }
      k := k + 1;
    }
    WholePrefix(records);
  }

  /** The `for date, row in df.iterrows()` loop of `analyze_trades`. */
  method PairRows(rows: seq<Row>) returns (s: Scan)
    requires Positive(rows)
    ensures s == Pairing(rows)
  {
    s := Start;
    var i := 0;
    while i < |rows|
      invariant i <= |rows|
      invariant Positive(rows[..i]) && s == Pairing(rows[..i])
    {
      assert rows[..i + 1][..i] == rows[..i];
      s := Step(s, rows[i]);
      i := i + 1;
    }
    WholePrefix(rows);
  }

  /** `analyze_trades`. */
  method AnalyzeTrades(rows: seq<Row>) returns (records: seq<TradeRecord>, winRate: real, avgReturn: real)
    requires Positive(rows)
    ensures AllFlat(rows) ==> records == [] && winRate == 0.0 && avgReturn == 0.0
    ensures !AllFlat(rows) ==> records == Pairing(rows).records && (winRate, avgReturn) == Summary(records)
  {
    if forall i :: 0 <= i < |rows| ==> rows[i].position == Some(0) {
      return [], 0.0, 0.0;
    }
    var s := PairRows(rows);
    records := s.records;
    if |records| > 0 {
      var winners := CountWinners(records);
      winRate := winners as real / |records| as real * 100.0;
      avgReturn := Mean(Returns(records));
    } else {
      winRate, avgReturn := 0.0, 0.0;
    }
  }

  /** The strategy's own frame starts with a NaN position, so a non-empty frame is never all flat. */
  lemma StrategyNeverFlat(dates: seq<int>, closes: seq<real>, short: nat, long: nat)
    requires |dates| == |closes| > 0 && short >= 1 && long >= 1
    ensures !AllFlat(StrategyRows(dates, closes, short, long))
  {
    var rows := StrategyRows(dates, closes, short, long);
    assert rows[0].position == Positions(Signals(closes, short, long))[0];
  }

  // ------------------------------------------------------------ properties of the pairing

  /** Each trade's return and holding time follow from its prices and dates. */
  ghost predicate WellFormed(t: TradeRecord)
  {
    t.entryPrice > 0.0 && t.returnsPct == (t.exitPrice / t.entryPrice - 1.0) * 100.0
    && t.holdingDays == t.exit - t.entry
  }

  lemma {:induction false} PairingWellFormed(rows: seq<Row>)
    requires Positive(rows)
    decreases |rows|
    ensures forall k :: 0 <= k < |Pairing(rows).records| ==> WellFormed(Pairing(rows).records[k])
  {
    if |rows| > 0 {
      var n := |rows| - 1;
      assert Positive(rows[..n]);
      PairingWellFormed(rows[..n]);
    }
  }

  /** Dates strictly increase from row to row, as the frame's daily index does. */
  predicate Increasing(rows: seq<Row>)
  {
    forall i :: 0 < i < |rows| ==> rows[i - 1].date < rows[i].date
  }

  /** Trades never overlap: each exits after it enters, and the next one enters after it exits. */
  ghost predicate Sequential(records: seq<TradeRecord>)
  {
    (forall k :: 0 <= k < |records| ==> records[k].entry < records[k].exit)
    && (forall k :: 0 < k < |records| ==> records[k - 1].exit < records[k].entry)
  }

  /** The loop state is ordered up to the date of the last row it has seen. */
  ghost predicate OrderedUpTo(s: Scan, last: int)
  {
    Sequential(s.records)
    && (|s.records| > 0 ==> s.records[|s.records| - 1].exit <= last)
    && (s.inPosition ==> s.entryDate <= last && (|s.records| > 0 ==> s.records[|s.records| - 1].exit < s.entryDate))
  }

  lemma StepOrdered(s: Scan, row: Row, last: int)
    requires s.inPosition ==> s.entryPrice > 0.0
    requires OrderedUpTo(s, last) && last < row.date
    ensures OrderedUpTo(Step(s, row), row.date)
  {
  }

  lemma {:induction false} PairingOrdered(rows: seq<Row>)
    requires Positive(rows) && Increasing(rows) && |rows| > 0
    decreases |rows|
    ensures OrderedUpTo(Pairing(rows), rows[|rows| - 1].date)
  {
    var n := |rows| - 1;
    var front := rows[..n];
    assert Positive(front) && Increasing(front);
    if n > 0 {
      PairingOrdered(front);
      StepOrdered(Pairing(front), rows[n], front[n - 1].date);
    }
  }

  /** On increasing dates the trades `analyze_trades` records never overlap and exit after entry. */
  lemma TradesSequential(rows: seq<Row>)
    requires Positive(rows) && Increasing(rows)
    ensures Sequential(Pairing(rows).records)
  {
    if |rows| > 0 {
      PairingOrdered(rows);
    }
  }

  /** Every trade enters at the close of a buy row and exits at the close of a later sell row. */
  ghost predicate FromRows(t: TradeRecord, rows: seq<Row>)
  {
    exists i, j :: 0 <= i < j < |rows| && IsBuy(rows[i]) && IsSell(rows[j])
      && rows[i].date == t.entry && rows[i].close == t.entryPrice
      && rows[j].date == t.exit && rows[j].close == t.exitPrice
  }

  ghost predicate AllFromRows(records: seq<TradeRecord>, rows: seq<Row>)
  {
    forall k :: 0 <= k < |records| ==> FromRows(records[k], rows)
  }

  /** The open entry comes from a buy row already seen. */
  ghost predicate EntryFromRows(s: Scan, rows: seq<Row>)
  {
    s.inPosition ==> exists i :: 0 <= i < |rows| && IsBuy(rows[i]) && rows[i].date == s.entryDate && rows[i].close == s.entryPrice
  }

  lemma {:induction false} PairingFromRows(rows: seq<Row>)
    requires Positive(rows)
    decreases |rows|
    ensures EntryFromRows(Pairing(rows), rows) && AllFromRows(Pairing(rows).records, rows)
  {
    if |rows| > 0 {
      var n := |rows| - 1;
      var front := rows[..n];
      assert Positive(front);
      PairingFromRows(front);
      var s := Pairing(front);
      FromRowsGrow(s, front, rows);
    }
  }

  /** What holds of the rows seen so far still holds once one more row is seen. */
  lemma FromRowsGrow(s: Scan, front: seq<Row>, rows: seq<Row>)
    requires |rows| > 0 && front == rows[..|rows| - 1] && Positive(rows)
    requires s.inPosition ==> s.entryPrice > 0.0
    requires EntryFromRows(s, front)
    requires AllFromRows(s.records, front)
    ensures EntryFromRows(Step(s, rows[|rows| - 1]), rows) && AllFromRows(Step(s, rows[|rows| - 1]).records, rows)
  {
    var n := |rows| - 1;
    var s' := Step(s, rows[n]);
    forall k | 0 <= k < |s.records|
      ensures FromRows(s.records[k], rows)
    {
      var i, j :| 0 <= i < j < |front| && IsBuy(front[i]) && IsSell(front[j])
        && front[i].date == s.records[k].entry && front[i].close == s.records[k].entryPrice
        && front[j].date == s.records[k].exit && front[j].close == s.records[k].exitPrice;
      assert rows[i] == front[i] && rows[j] == front[j];
    }
    if s.inPosition {
      var i :| 0 <= i < |front| && IsBuy(front[i]) && front[i].date == s.entryDate && front[i].close == s.entryPrice;
      assert rows[i] == front[i];
      if IsSell(rows[n]) {
        assert FromRows(s'.records[|s'.records| - 1], rows);
      }
    }
    if IsBuy(rows[n]) && !s.inPosition {
      assert EntryFromRows(s', rows);
    }
  }
}
