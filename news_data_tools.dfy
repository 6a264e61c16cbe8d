/**
 * The news tool's parameter optimisation: `optimize_parameters_for_vendor`
 * fills a parameter dictionary step by step, shortening the date window and
 * bounding the item limit for the OpenAI vendor, widening the window and
 * raising the limit for other vendors, and forwarding the caller's values
 * verbatim when vendor awareness is off. The clock is a parameter (`now`).
 */
module NewsDataTools {
  import opened Common
  import opened AlphaVantageCommon

  // --------------------------------------------------------------- calendar

  /** The number of days in the years before y, counted from 0001-01-01: 366 for a leap year, 365 for another. */
  function DaysBeforeYear(y: nat): nat
    requires y >= 1
    decreases y
  {
    if y == 1 then 0 else DaysBeforeYear(y - 1) + if LeapYear(y - 1) then 366 else 365
  }

  /** The number of days in the months of year y before month m. */
  function DaysBeforeMonth(y: nat, m: nat): nat
    requires 1 <= m <= 12
    decreases m
  {
    if m == 1 then 0 else DaysBeforeMonth(y, m - 1) + DaysInMonth(y, m - 1)
  }

  /** A date's day number: `date.toordinal() - 1`, zero on 0001-01-01. */
  function DayNumber(t: Stamp): int
    requires t.year >= 1 && 1 <= t.month <= 12
  {
    DaysBeforeYear(t.year) + DaysBeforeMonth(t.year, t.month) + t.day - 1
  }

  /** The eleven months before December hold 334 days, one more in a leap year. */
  lemma DaysBeforeDecember(y: nat)
    ensures DaysBeforeMonth(y, 12) == 334 + if LeapYear(y) then 1 else 0
  {
    assert DaysBeforeMonth(y, 2) == 31;
    assert DaysBeforeMonth(y, 3) == 59 + if LeapYear(y) then 1 else 0;
    assert DaysBeforeMonth(y, 4) == 90 + if LeapYear(y) then 1 else 0;
    assert DaysBeforeMonth(y, 5) == 120 + if LeapYear(y) then 1 else 0;
    assert DaysBeforeMonth(y, 6) == 151 + if LeapYear(y) then 1 else 0;
    assert DaysBeforeMonth(y, 7) == 181 + if LeapYear(y) then 1 else 0;
    assert DaysBeforeMonth(y, 8) == 212 + if LeapYear(y) then 1 else 0;
    assert DaysBeforeMonth(y, 9) == 243 + if LeapYear(y) then 1 else 0;
    assert DaysBeforeMonth(y, 10) == 273 + if LeapYear(y) then 1 else 0;
    assert DaysBeforeMonth(y, 11) == 304 + if LeapYear(y) then 1 else 0;
  }

  /** Only 0001-01-01 has day number zero. */
  lemma FirstDay(t: Stamp)
    requires ValidStamp(t)
    ensures DayNumber(t) >= 0
    ensures DayNumber(t) == 0 <==> t.year == 1 && t.month == 1 && t.day == 1
  {
    if t.month > 1 {
      assert DaysBeforeMonth(t.year, t.month) >= DaysInMonth(t.year, t.month - 1) > 0;
    }
  }

  /** The day before, at the same time of day; none before 0001-01-01, where Python overflows. */
  function PrevDay(t: Stamp): (r: Option<Stamp>)
    requires ValidStamp(t)
    ensures r.None? <==> t.year == 1 && t.month == 1 && t.day == 1
    ensures r.Some? ==> ValidStamp(r.value) && r.value.hour == t.hour && r.value.minute == t.minute
  {
    if t.day > 1 then Some(t.(day := t.day - 1))
    else if t.month > 1 then Some(t.(month := t.month - 1, day := DaysInMonth(t.year, t.month - 1)))
    else if t.year > 1 then Some(Stamp(t.year - 1, 12, 31, t.hour, t.minute))
    else None
  }

  /** The day before has the day number one less. */
  lemma PrevDayNumber(t: Stamp)
    requires ValidStamp(t) && PrevDay(t).Some?
    ensures DayNumber(PrevDay(t).value) == DayNumber(t) - 1
  {
    var p := PrevDay(t).value;
    if t.day > 1 {
      assert p == t.(day := t.day - 1);
    } else if t.month > 1 {
      assert p == t.(month := t.month - 1, day := DaysInMonth(t.year, t.month - 1));
      assert DaysBeforeMonth(t.year, t.month) == DaysBeforeMonth(t.year, t.month - 1) + DaysInMonth(t.year, t.month - 1);
    } else {
      assert p == Stamp(t.year - 1, 12, 31, t.hour, t.minute);
      NewYear(t.year, t.hour, t.minute);
    }
  }

  /** New Year's Eve is the day before the first of January. */
  lemma NewYear(y: nat, hour: nat, minute: nat)
    requires y >= 2
    ensures DayNumber(Stamp(y - 1, 12, 31, hour, minute)) + 1 == DayNumber(Stamp(y, 1, 1, hour, minute))
  {
    LastDayNumber(y - 1, hour, minute);
    FirstDayNumber(y, hour, minute);
  }

  /** New Year's Eve comes 364 days after the first of January, 365 in a leap year. */
  lemma LastDayNumber(y: nat, hour: nat, minute: nat)
    requires y >= 1
    ensures DayNumber(Stamp(y, 12, 31, hour, minute)) == DaysBeforeYear(y) + 364 + if LeapYear(y) then 1 else 0
  {
    DaysBeforeDecember(y);
  }

  /** The first of January follows all the days of the years before. */
  lemma FirstDayNumber(y: nat, hour: nat, minute: nat)
    requires y >= 2
    ensures DayNumber(Stamp(y, 1, 1, hour, minute)) == DaysBeforeYear(y - 1) + if LeapYear(y - 1) then 366 else 365
  {
  }

  /** `t - timedelta(days=n)`: none when it would fall before 0001-01-01. */
  function MinusDays(t: Stamp, n: nat): (r: Option<Stamp>)
    requires ValidStamp(t)
    ensures r.Some? ==> ValidStamp(r.value)
    decreases n
  {
    if n == 0 then Some(t)
    else match PrevDay(t)
      case None => None
      case Some(p) => MinusDays(p, n - 1)
  }

  /** Going back n days succeeds exactly when n days exist before t, and lowers the day number by n. */
  lemma {:induction false} MinusDaysNumber(t: Stamp, n: nat)
    requires ValidStamp(t)
    ensures MinusDays(t, n).Some? <==> DayNumber(t) >= n
    ensures MinusDays(t, n).Some? ==> DayNumber(MinusDays(t, n).value) == DayNumber(t) - n
    decreases n
  {
    FirstDay(t);
    if n > 0 && PrevDay(t).Some? {
      PrevDayNumber(t);
      MinusDaysNumber(PrevDay(t).value, n - 1);
    }
  }

  /** `(end - start).days` for two dates at midnight. */
  function DaysDiff(start: Stamp, end: Stamp): int
    requires start.year >= 1 && 1 <= start.month <= 12 && end.year >= 1 && 1 <= end.month <= 12
  {
    DayNumber(end) - DayNumber(start)
  }

  /** `strftime("%Y-%m-%d")`. */
  function IsoDate(t: Stamp): string
  {
    Pad(t.year, 4) + "-" + Pad(t.month, 2) + "-" + Pad(t.day, 2)
  }

  // ------------------------------------------------------------- parameters

  const TickerKey := "ticker"
  const StartKey := "start_date"
  const EndKey := "end_date"
  const LimitKey := "limit"
  const TopicsKey := "topics"

  /** A string argument is truthy when it is given and not empty. */
  predicate Given(s: Option<string>)
  {
    s.Some? && |s.value| > 0
  }

  /** The parsed pair of dates, when both parse with "%Y-%m-%d". */
  function BothDates(start: string, end: string): (r: Option<(Stamp, Stamp)>)
    ensures r.Some? ==> ValidStamp(r.value.0) && ValidStamp(r.value.1)
  {
    ParsedValid(start);
    ParsedValid(end);
    if ParseDate(start).Some? && ParseDate(end).Some? then Some((ParseDate(start).value, ParseDate(end).value)) else None
  }

  /**
   * The OpenAI vendor's dates when both are given: a window of more than two
   * days is cut to the two days before the end date; narrower windows, and
   * dates that do not parse, send no date at all. The end date is forwarded
   * as given.
   */
  function OpenAiWindow(start: string, end: string): (r: Option<(string, string)>)
  {
    match BothDates(start, end)
    case None => None
    case Some(ds) =>
      if DaysDiff(ds.0, ds.1) > 2 then
        match MinusDays(ds.1, 2)
        case None => None
        case Some(s) => Some((end, IsoDate(s)))
      else None
  }

  /** The limit the OpenAI vendor is sent: 10 when absent or above 10, 3 below 3, nothing in between. */
  function OpenAiLimit(limit: Option<int>): (r: Option<int>)
    ensures r == Some(10) <==> limit.None? || limit.value > 10
    ensures r == Some(3) <==> limit.Some? && limit.value < 3
    ensures r.None? <==> limit.Some? && 3 <= limit.value <= 10
  {
    if limit.None? || limit.value > 10 then Some(10) else if limit.value < 3 then Some(3) else None
  }

  /** The limit other vendors are sent: 50 when absent or above 50, nothing otherwise. */
  function WideLimit(limit: Option<int>): (r: Option<int>)
    ensures r == Some(50) <==> limit.None? || limit.value > 50
    ensures r.None? <==> limit.Some? && limit.value <= 50
  {
    if limit.None? || limit.value > 50 then Some(50) else None
  }

  /** The inputs of `optimize_parameters_for_vendor`. */
  datatype Query = Query(vendor: string, ticker: Option<string>, startDate: Option<string>, endDate: Option<string>,
                             topics: Option<string>, limit: Option<int>, vendorAware: bool)

  const OverflowMessage := "OverflowError: date value out of range"

  /** The default window of `days` days ending now, or the overflow that `now - timedelta` raises. */
  function DefaultWindow(now: Stamp, days: nat): (r: Result<(string, string)>)
    requires ValidStamp(now)
  {
    match MinusDays(now, days)
    case None => Err(OverflowMessage)
    case Some(s) => Ok((IsoDate(s), IsoDate(now)))
  }

  /** The dictionary after optionally setting k. */
  function SetIf(d: Dict, k: string, v: Option<Value>): Dict
  {
    PutOpt(d, k, v)
  }

  function IntValue(n: Option<int>): Option<Value>
  {
    if n.Some? then Some(Int(n.value)) else None
  }

  function StrValue(s: Option<string>): Option<Value>
  {
    if s.Some? then Some(Str(s.value)) else None
  }

  /** With vendor awareness off: the given dates and the limit, verbatim. */
  function VerbatimPart(d: Dict, q: Query): Dict
  {
    SetIf(SetIf(SetIf(d, StartKey, if Given(q.startDate) then StrValue(q.startDate) else None),
                EndKey, if Given(q.endDate) then StrValue(q.endDate) else None),
          LimitKey, IntValue(q.limit))
  }

  /** The dates of a default window, start first. */
  function WindowPart(d: Dict, w: (string, string)): Dict
  {
    Put(Put(d, StartKey, Str(w.0)), EndKey, Str(w.1))
  }

  /** The OpenAI vendor's dates: a one-day window when none is given, a cut window when both are. */
  function OpenAiDates(d: Dict, q: Query, now: Stamp): (r: Result<Dict>)
    requires ValidStamp(now)
  {
    if !Given(q.startDate) && !Given(q.endDate) then
      match DefaultWindow(now, 1)
      case Err(e) => Err(e)
      case Ok(w) => Ok(WindowPart(d, w))
    else if Given(q.startDate) && Given(q.endDate) then
      match OpenAiWindow(q.startDate.value, q.endDate.value)
      case None => Ok(d)
      case Some(w) => Ok(Put(Put(d, EndKey, Str(w.0)), StartKey, Str(w.1)))
    else Ok(d)
  }

  /** Other vendors' dates: a seven-day window when none is given. */
  function WideDates(d: Dict, q: Query, now: Stamp): (r: Result<Dict>)
    requires ValidStamp(now)
  {
    if !Given(q.startDate) && !Given(q.endDate) then
      match DefaultWindow(now, 7)
      case Err(e) => Err(e)
      case Ok(w) => Ok(WindowPart(d, w))
    else Ok(d)
  }

  /**
   * The dates and the limit, as the branch on vendor awareness and vendor
   * sets them after the ticker; an uncaught overflow of the clock fails the
   * whole call.
   */
  function VendorPart(d: Dict, q: Query, now: Stamp): (r: Result<Dict>)
    requires ValidStamp(now)
  {
    if !q.vendorAware then Ok(VerbatimPart(d, q))
    else if q.vendor == "openai" then
      match OpenAiDates(d, q, now)
      case Err(e) => Err(e)
      case Ok(e) => Ok(SetIf(e, LimitKey, IntValue(OpenAiLimit(q.limit))))
    else
      match WideDates(d, q, now)
      case Err(e) => Err(e)
      case Ok(e) => Ok(SetIf(e, LimitKey, IntValue(WideLimit(q.limit))))
  }

  /** `optimize_parameters_for_vendor`: the ticker, the vendor part, then the topics. */
  function Optimized(q: Query, now: Stamp): (r: Result<Dict>)
    requires ValidStamp(now)
  {
    match VendorPart(SetIf([], TickerKey, StrValue(q.ticker)), q, now)
    case Err(e) => Err(e)
    case Ok(d) => Ok(SetIf(d, TopicsKey, StrValue(q.topics)))
  }

  /** The OpenAI branch of the method. */
  method FillOpenAi(params: Dict, q: Query, now: Stamp) returns (r: Result<Dict>)
    requires ValidStamp(now) && q.vendorAware && q.vendor == "openai"
    ensures r == VendorPart(params, q, now)
  {
    var p := params;
    if !Given(q.startDate) && !Given(q.endDate) {
      var window := DefaultWindow(now, 1);
      if window.Err? {
        return Err(window.msg);
      }
      p := Put(p, StartKey, Str(window.value.0));
      p := Put(p, EndKey, Str(window.value.1));
    } else if Given(q.startDate) && Given(q.endDate) {
      var cut := OpenAiWindow(q.startDate.value, q.endDate.value);
      if cut.Some? {
        p := Put(p, EndKey, Str(cut.value.0));
        p := Put(p, StartKey, Str(cut.value.1));
      }
    }
    assert OpenAiDates(params, q, now) == Ok(p);
    if q.limit.None? || q.limit.value > 10 {
      p := Put(p, LimitKey, Int(10));
    } else if q.limit.value < 3 {
      p := Put(p, LimitKey, Int(3));
    }
    r := Ok(p);
  }

  /** The branch of the method for other vendors. */
  method FillWide(params: Dict, q: Query, now: Stamp) returns (r: Result<Dict>)
    requires ValidStamp(now) && q.vendorAware && q.vendor != "openai"
    ensures r == VendorPart(params, q, now)
  {
    var p := params;
    if !Given(q.startDate) && !Given(q.endDate) {
      var window := DefaultWindow(now, 7);
      if window.Err? {
        return Err(window.msg);
      }
      p := Put(p, StartKey, Str(window.value.0));
      p := Put(p, EndKey, Str(window.value.1));
    }
    assert WideDates(params, q, now) == Ok(p);
    if q.limit.None? || q.limit.value > 50 {
      p := Put(p, LimitKey, Int(50));
    }
    r := Ok(p);
  }

  /** `optimize_parameters_for_vendor`, filling the dictionary step by step. */
  method OptimizeParameters(q: Query, now: Stamp) returns (r: Result<Dict>)
    requires ValidStamp(now)
    ensures r == Optimized(q, now)
  {
    var params: Dict := [];
    if q.ticker.Some? {
      params := Put(params, TickerKey, Str(q.ticker.value));
    }
    assert params == SetIf([], TickerKey, StrValue(q.ticker));
    var part: Result<Dict>;
    if q.vendorAware {
      if q.vendor == "openai" {
        part := FillOpenAi(params, q, now);
      } else {
        part := FillWide(params, q, now);
      }
    } else {
      if Given(q.startDate) {
        params := Put(params, StartKey, Str(q.startDate.value));
      }
      if Given(q.endDate) {
        params := Put(params, EndKey, Str(q.endDate.value));
      }
      if q.limit.Some? {
        params := Put(params, LimitKey, Int(q.limit.value));
      }
      part := Ok(params);
    }
    if part.Err? {
      return Err(part.msg);
    }
    params := part.value;
    if q.topics.Some? {
      params := Put(params, TopicsKey, Str(q.topics.value));
    }
    r := Ok(params);
  }

  // ----------------------------------------------------------- properties

  lemma KeysDistinct()
    ensures TickerKey != StartKey && TickerKey != EndKey && TickerKey != LimitKey && TickerKey != TopicsKey
    ensures StartKey != EndKey && StartKey != LimitKey && StartKey != TopicsKey
    ensures EndKey != LimitKey && EndKey != TopicsKey && LimitKey != TopicsKey
  {
    assert |TickerKey| == 6 && |StartKey| == 10 && |EndKey| == 8 && |LimitKey| == 5 && |TopicsKey| == 6;
    assert TickerKey[1] != TopicsKey[1];
  }

  /** Reading k after setting another key. */
  lemma OtherKey(d: Dict, n: string, v: Value, k: string)
    requires n != k
    ensures Get(Put(d, n, v), k) == Get(d, k)
  {
    PutGet(d, n, v, k);
  }

  lemma OtherKeyOpt(d: Dict, n: string, v: Option<Value>, k: string)
    requires n != k
    ensures Get(SetIf(d, n, v), k) == Get(d, k)
  {
    PutOptGet(d, n, v, k);
  }

  /** The vendor part sets only dates and the limit: every other key keeps its value. */
  lemma VendorPartKeeps(d: Dict, q: Query, now: Stamp, k: string)
    requires ValidStamp(now) && VendorPart(d, q, now).Ok?
    requires k != StartKey && k != EndKey && k != LimitKey
    ensures Get(VendorPart(d, q, now).value, k) == Get(d, k)
  {
    if !q.vendorAware {
      var d1 := SetIf(d, StartKey, if Given(q.startDate) then StrValue(q.startDate) else None);
      var d2 := SetIf(d1, EndKey, if Given(q.endDate) then StrValue(q.endDate) else None);
      OtherKeyOpt(d, StartKey, if Given(q.startDate) then StrValue(q.startDate) else None, k);
      OtherKeyOpt(d1, EndKey, if Given(q.endDate) then StrValue(q.endDate) else None, k);
      OtherKeyOpt(d2, LimitKey, IntValue(q.limit), k);
    } else {
      var dates := if q.vendor == "openai" then OpenAiDates(d, q, now) else WideDates(d, q, now);
      assert dates.Ok?;
      DatesKeep(d, q, now, k);
      OtherKeyOpt(dates.value, LimitKey, IntValue(if q.vendor == "openai" then OpenAiLimit(q.limit) else WideLimit(q.limit)), k);
    }
  }

  /** The date steps set only the two dates. */
  lemma DatesKeep(d: Dict, q: Query, now: Stamp, k: string)
    requires ValidStamp(now) && k != StartKey && k != EndKey
    ensures OpenAiDates(d, q, now).Ok? ==> Get(OpenAiDates(d, q, now).value, k) == Get(d, k)
    ensures WideDates(d, q, now).Ok? ==> Get(WideDates(d, q, now).value, k) == Get(d, k)
  {
    forall w: (string, string) ensures Get(WindowPart(d, w), k) == Get(d, k) {
      OtherKey(d, StartKey, Str(w.0), k);
      OtherKey(Put(d, StartKey, Str(w.0)), EndKey, Str(w.1), k);
    }
    forall w: (string, string) ensures Get(Put(Put(d, EndKey, Str(w.0)), StartKey, Str(w.1)), k) == Get(d, k) {
      OtherKey(d, EndKey, Str(w.0), k);
      OtherKey(Put(d, EndKey, Str(w.0)), StartKey, Str(w.1), k);
    }
  }

  /** The ticker and the topics are forwarded exactly when they are given, as given. */
  lemma TickerAndTopics(q: Query, now: Stamp)
    requires ValidStamp(now) && Optimized(q, now).Ok?
    ensures Get(Optimized(q, now).value, TickerKey) == StrValue(q.ticker)
    ensures Get(Optimized(q, now).value, TopicsKey) == StrValue(q.topics)
  {
    KeysDistinct();
    var d0 := SetIf([], TickerKey, StrValue(q.ticker));
    PutOptGet([], TickerKey, StrValue(q.ticker), TickerKey);
    PutOptGet([], TickerKey, StrValue(q.ticker), TopicsKey);
    VendorPartKeeps(d0, q, now, TickerKey);
    VendorPartKeeps(d0, q, now, TopicsKey);
    var d := VendorPart(d0, q, now).value;
    assert Optimized(q, now).value == SetIf(d, TopicsKey, StrValue(q.topics));
    PutOptGet(d, TopicsKey, StrValue(q.topics), TickerKey);
    PutOptGet(d, TopicsKey, StrValue(q.topics), TopicsKey);
  }

  /** The dictionary before the vendor part: the ticker alone, when given. */
  function TickerOnly(q: Query): Dict
  {
    SetIf([], TickerKey, StrValue(q.ticker))
  }

  /** The date step of the vendor-aware branch. */
  function AwareDates(q: Query, now: Stamp): Result<Dict>
    requires ValidStamp(now)
  {
    if q.vendor == "openai" then OpenAiDates(TickerOnly(q), q, now) else WideDates(TickerOnly(q), q, now)
  }

  /** Under vendor awareness, the dates sent are those of the date step, which starts from a dictionary without dates. */
  lemma DatesThrough(q: Query, now: Stamp, k: string)
    requires ValidStamp(now) && q.vendorAware && (k == StartKey || k == EndKey)
    ensures Optimized(q, now).Ok? <==> AwareDates(q, now).Ok?
    ensures Optimized(q, now).Ok? ==> Get(Optimized(q, now).value, k) == Get(AwareDates(q, now).value, k)
    ensures Get(TickerOnly(q), k) == None
  {
    KeysDistinct();
    PutOptGet([], TickerKey, StrValue(q.ticker), k);
    if AwareDates(q, now).Ok? {
      var dates := AwareDates(q, now).value;
      var lim := IntValue(if q.vendor == "openai" then OpenAiLimit(q.limit) else WideLimit(q.limit));
      OtherKeyOpt(dates, LimitKey, lim, k);
      OtherKeyOpt(SetIf(dates, LimitKey, lim), TopicsKey, StrValue(q.topics), k);
    }
  }

  /** Reading a default window back. */
  lemma WindowReads(d: Dict, w: (string, string))
    ensures Get(WindowPart(d, w), StartKey) == Some(Str(w.0)) && Get(WindowPart(d, w), EndKey) == Some(Str(w.1))
  {
    KeysDistinct();
    OtherKey(Put(d, StartKey, Str(w.0)), EndKey, Str(w.1), StartKey);
  }

  /**
   * OpenAI without dates: a one-day window ending now, failing only when
   * there is no day before now.
   */
  lemma OpenAiOneDay(q: Query, now: Stamp)
    requires ValidStamp(now) && q.vendorAware && q.vendor == "openai" && !Given(q.startDate) && !Given(q.endDate)
    ensures Optimized(q, now).Ok? <==> DayNumber(now) >= 1
    ensures Optimized(q, now).Err? ==> Optimized(q, now).msg == OverflowMessage
    ensures Optimized(q, now).Ok? ==>
      var s := MinusDays(now, 1).value;
      DayNumber(s) == DayNumber(now) - 1
      && Get(Optimized(q, now).value, StartKey) == Some(Str(IsoDate(s)))
      && Get(Optimized(q, now).value, EndKey) == Some(Str(IsoDate(now)))
  {
    MinusDaysNumber(now, 1);
    DatesThrough(q, now, StartKey);
    DatesThrough(q, now, EndKey);
    if MinusDays(now, 1).Some? {
      WindowReads(TickerOnly(q), (IsoDate(MinusDays(now, 1).value), IsoDate(now)));
    }
  }

  /** Other vendors without dates: a seven-day window ending now. */
  lemma WideSevenDays(q: Query, now: Stamp)
    requires ValidStamp(now) && q.vendorAware && q.vendor != "openai" && !Given(q.startDate) && !Given(q.endDate)
    ensures Optimized(q, now).Ok? <==> DayNumber(now) >= 7
    ensures Optimized(q, now).Err? ==> Optimized(q, now).msg == OverflowMessage
    ensures Optimized(q, now).Ok? ==>
      var s := MinusDays(now, 7).value;
      DayNumber(s) == DayNumber(now) - 7
      && Get(Optimized(q, now).value, StartKey) == Some(Str(IsoDate(s)))
      && Get(Optimized(q, now).value, EndKey) == Some(Str(IsoDate(now)))
  {
    MinusDaysNumber(now, 7);
    DatesThrough(q, now, StartKey);
    DatesThrough(q, now, EndKey);
    if MinusDays(now, 7).Some? {
      WindowReads(TickerOnly(q), (IsoDate(MinusDays(now, 7).value), IsoDate(now)));
    }
  }

  /** Other vendors with a date given: no date is sent at all. */
  lemma WideGivenDatesDropped(q: Query, now: Stamp)
    requires ValidStamp(now) && q.vendorAware && q.vendor != "openai" && (Given(q.startDate) || Given(q.endDate))
    ensures Optimized(q, now).Ok?
    ensures Get(Optimized(q, now).value, StartKey) == None && Get(Optimized(q, now).value, EndKey) == None
  {
    DatesThrough(q, now, StartKey);
    DatesThrough(q, now, EndKey);
  }

  /**
   * OpenAI with both dates: when both parse and span more than two days,
   * the end date is sent as given and the start date becomes two days
   * before the end; otherwise no date is sent.
   */
  lemma OpenAiCutWindow(q: Query, now: Stamp)
    requires ValidStamp(now) && q.vendorAware && q.vendor == "openai" && Given(q.startDate) && Given(q.endDate)
    ensures Optimized(q, now).Ok?
    ensures var ds := BothDates(q.startDate.value, q.endDate.value);
      var p := Optimized(q, now).value;
      if ds.Some? && DaysDiff(ds.value.0, ds.value.1) > 2 then
        MinusDays(ds.value.1, 2).Some?
        && DayNumber(MinusDays(ds.value.1, 2).value) == DayNumber(ds.value.1) - 2
        && Get(p, EndKey) == Some(Str(q.endDate.value))
        && Get(p, StartKey) == Some(Str(IsoDate(MinusDays(ds.value.1, 2).value)))
      else Get(p, StartKey) == None && Get(p, EndKey) == None
  {
    KeysDistinct();
    DatesThrough(q, now, StartKey);
    DatesThrough(q, now, EndKey);
    var ds := BothDates(q.startDate.value, q.endDate.value);
    if ds.Some? && DaysDiff(ds.value.0, ds.value.1) > 2 {
      FirstDay(ds.value.0);
      MinusDaysNumber(ds.value.1, 2);
      var w := OpenAiWindow(q.startDate.value, q.endDate.value).value;
      var d := TickerOnly(q);
      OtherKey(Put(d, EndKey, Str(w.0)), StartKey, Str(w.1), EndKey);
    }
  }

  /** What verbatim forwarding leaves under each key it may set. */
  lemma VerbatimReads(d: Dict, q: Query)
    ensures Get(VerbatimPart(d, q), StartKey) == if Given(q.startDate) then StrValue(q.startDate) else Get(d, StartKey)
    ensures Get(VerbatimPart(d, q), EndKey) == if Given(q.endDate) then StrValue(q.endDate) else Get(d, EndKey)
    ensures Get(VerbatimPart(d, q), LimitKey) == if q.limit.Some? then IntValue(q.limit) else Get(d, LimitKey)
  {
    KeysDistinct();
    var sv := if Given(q.startDate) then StrValue(q.startDate) else None;
    var ev := if Given(q.endDate) then StrValue(q.endDate) else None;
    var d1 := SetIf(d, StartKey, sv);
    var d2 := SetIf(d1, EndKey, ev);
    PutOptGet(d, StartKey, sv, StartKey);
    PutOptGet(d, StartKey, sv, EndKey);
    PutOptGet(d, StartKey, sv, LimitKey);
    PutOptGet(d1, EndKey, ev, StartKey);
    PutOptGet(d1, EndKey, ev, EndKey);
    PutOptGet(d1, EndKey, ev, LimitKey);
    PutOptGet(d2, LimitKey, IntValue(q.limit), StartKey);
    PutOptGet(d2, LimitKey, IntValue(q.limit), EndKey);
    PutOptGet(d2, LimitKey, IntValue(q.limit), LimitKey);
  }

  /** The ticker-only dictionary holds no date and no limit. */
  lemma TickerOnlyReads(q: Query)
    ensures Get(TickerOnly(q), StartKey) == None && Get(TickerOnly(q), EndKey) == None && Get(TickerOnly(q), LimitKey) == None
  {
    KeysDistinct();
    PutOptGet([], TickerKey, StrValue(q.ticker), StartKey);
    PutOptGet([], TickerKey, StrValue(q.ticker), EndKey);
    PutOptGet([], TickerKey, StrValue(q.ticker), LimitKey);
  }

  /** Without vendor awareness the dates are sent exactly when given, the limit exactly when it is not None, and the call never fails. */
  lemma Verbatim(q: Query, now: Stamp)
    requires ValidStamp(now) && !q.vendorAware
    ensures Optimized(q, now).Ok?
    ensures Get(Optimized(q, now).value, StartKey) == (if Given(q.startDate) then StrValue(q.startDate) else None)
    ensures Get(Optimized(q, now).value, EndKey) == (if Given(q.endDate) then StrValue(q.endDate) else None)
    ensures Get(Optimized(q, now).value, LimitKey) == IntValue(q.limit)
  {
    KeysDistinct();
    TickerOnlyReads(q);
    VerbatimReads(TickerOnly(q), q);
    var v := VerbatimPart(TickerOnly(q), q);
    OtherKeyOpt(v, TopicsKey, StrValue(q.topics), StartKey);
    OtherKeyOpt(v, TopicsKey, StrValue(q.topics), EndKey);
    OtherKeyOpt(v, TopicsKey, StrValue(q.topics), LimitKey);
  }

  /** Under vendor awareness the limit sent follows the vendor's rule. */
  lemma AwareLimit(q: Query, now: Stamp)
    requires ValidStamp(now) && q.vendorAware && Optimized(q, now).Ok?
    ensures Get(Optimized(q, now).value, LimitKey) == IntValue(if q.vendor == "openai" then OpenAiLimit(q.limit) else WideLimit(q.limit))
  {
    KeysDistinct();
    DatesThrough(q, now, StartKey);
    var dates := AwareDates(q, now).value;
    var lim := IntValue(if q.vendor == "openai" then OpenAiLimit(q.limit) else WideLimit(q.limit));
    var part := SetIf(dates, LimitKey, lim);
    assert Optimized(q, now).value == SetIf(part, TopicsKey, StrValue(q.topics));
    OtherKeyOpt(part, TopicsKey, StrValue(q.topics), LimitKey);
    PutOptGet(dates, LimitKey, lim, LimitKey);
    TickerOnlyReads(q);
    DatesKeep(TickerOnly(q), q, now, LimitKey);
  }
}
