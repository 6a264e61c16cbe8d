/**
 * The economic calendar of the Alpha Vantage vendor: the parameters of the
 * `ECONOMIC_CALENDAR` request, the error dictionary that replaces a failed
 * request, and the Markdown report that groups the events by date. The
 * clock is a parameter, and so is `str()` of a value that is not a string.
 */
module AlphaVantageEconomic {
  import opened Common
  import opened AlphaVantageCommon

  // ------------------------------------------------------------- parameters

  /** `strftime("%Y%m%d")`. */
  function DayStamp(t: Stamp): string
  {
    Pad(t.year, 4) + Pad(t.month, 2) + Pad(t.day, 2)
  }

  /** The `from` or `to` value: the date as "YYYYMMDD" when it is given and parses as "%Y-%m-%d". */
  function CompactDate(date: string): (r: Option<Value>)
    ensures r.Some? <==> |date| > 0 && ParseDate(date).Some?
  {
    if |date| > 0 && ParseDate(date).Some? then Some(Str(DayStamp(ParseDate(date).value))) else None
  }

  /** "YYYY-MM-DD" of an existing date loses its dashes. */
  lemma CompactDateForm(s: string)
    requires |s| == 10 && s[4] == '-' && s[7] == '-'
    requires forall k :: 0 <= k < 10 && k != 4 && k != 7 ==> IsDigitChar(s[k])
    requires ValidStamp(Spelled(s, false))
    ensures CompactDate(s) == Some(Str(s[..4] + s[5..7] + s[8..10]))
  {
    YearReads(s);
    TwoDigitFields(s, 5);
    TwoDigitFields(s, 8);
    assert ParseDate(s) == Some(Spelled(s, false));
    PadFourBack(s, 0);
    PadTwoBack(s, 5);
    PadTwoBack(s, 8);
  }

  const FromKey := "from"
  const ToKey := "to"
  const ImportanceKey := "importance"
  const CountriesKey := "countries"
  const LimitKey := "limit"

  /** The parameter names, in the order they are set. */
  const CalendarNames: seq<string> := [FromKey, ToKey, ImportanceKey, CountriesKey, LimitKey]

  lemma CalendarNamesDistinct()
    ensures forall i, j :: 0 <= i < j < 5 ==> CalendarNames[i] != CalendarNames[j]
  {
    var lengths := [4, 2, 10, 9, 5];
    forall i | 0 <= i < 5 ensures |CalendarNames[i]| == lengths[i] {}
  }

  /** The five values `get_economic_calendar_av` may assign; `None` where it skips the name. */
  function CalendarValues(fromDate: string, toDate: string, importance: Option<string>, countries: Option<string>,
                          limit: Option<int>): (vs: seq<Option<Value>>)
    ensures |vs| == 5
  {
    [CompactDate(fromDate), CompactDate(toDate),
     if importance.Some? && |importance.value| > 0 then Some(Str(importance.value)) else None,
     if countries.Some? && |countries.value| > 0 then Some(Str(countries.value)) else None,
     if limit.Some? && limit.value != 0 then Some(Str(IntToString(limit.value))) else None]
  }

  /** The parameters of `get_economic_calendar_av`. */
  function CalendarParams(fromDate: string, toDate: string, importance: Option<string>, countries: Option<string>,
                          limit: Option<int>): Dict
  {
    var vs := CalendarValues(fromDate, toDate, importance, countries, limit);
    PutOpt(PutOpt(PutOpt(PutOpt(PutOpt([], FromKey, vs[0]), ToKey, vs[1]), ImportanceKey, vs[2]), CountriesKey, vs[3]), LimitKey, vs[4])
  }

  /** Each name reads back what was assigned to it. */
  lemma CalendarReads(fromDate: string, toDate: string, importance: Option<string>, countries: Option<string>,
                      limit: Option<int>, i: nat)
    requires i < 5
    ensures Get(CalendarParams(fromDate, toDate, importance, countries, limit), CalendarNames[i])
            == CalendarValues(fromDate, toDate, importance, countries, limit)[i]
  {
    var vs := CalendarValues(fromDate, toDate, importance, countries, limit);
    var m := CalendarNames[i];
    CalendarNamesDistinct();
    var d1 := PutOpt([], FromKey, vs[0]);
    var d2 := PutOpt(d1, ToKey, vs[1]);
    var d3 := PutOpt(d2, ImportanceKey, vs[2]);
    var d4 := PutOpt(d3, CountriesKey, vs[3]);
    PutOptGet([], FromKey, vs[0], m);
    PutOptGet(d1, ToKey, vs[1], m);
    PutOptGet(d2, ImportanceKey, vs[2], m);
    PutOptGet(d3, CountriesKey, vs[3], m);
    PutOptGet(d4, LimitKey, vs[4], m);
  }

  /**
   * What the calendar request carries: each date as "YYYYMMDD" exactly when
   * it parses, the importance and the countries exactly when they are
   * non-empty, and the limit as text exactly when it is non-zero.
   */
  lemma CalendarParamsFields(fromDate: string, toDate: string, importance: Option<string>, countries: Option<string>,
                             limit: Option<int>)
    ensures var p := CalendarParams(fromDate, toDate, importance, countries, limit);
      Get(p, FromKey) == CompactDate(fromDate) && Get(p, ToKey) == CompactDate(toDate)
      && (HasKey(p, ImportanceKey) <==> importance.Some? && |importance.value| > 0)
      && (HasKey(p, ImportanceKey) ==> Get(p, ImportanceKey) == Some(Str(importance.value)))
      && (HasKey(p, CountriesKey) <==> countries.Some? && |countries.value| > 0)
      && (HasKey(p, CountriesKey) ==> Get(p, CountriesKey) == Some(Str(countries.value)))
      && (HasKey(p, LimitKey) <==> limit.Some? && limit.value != 0)
      && (HasKey(p, LimitKey) ==> Get(p, LimitKey) == Some(Str(IntToString(limit.value))))
  {
    forall i | 0 <= i < 5
      ensures Get(CalendarParams(fromDate, toDate, importance, countries, limit), CalendarNames[i])
              == CalendarValues(fromDate, toDate, importance, countries, limit)[i]
    {
      CalendarReads(fromDate, toDate, importance, countries, limit, i);
    }
  }

  const CalendarFunction := "ECONOMIC_CALENDAR"

  /** The dictionary that replaces a failed request. */
  function ApiErrorDict(message: string): Value
  {
    Dict([("error", Str("Alpha Vantage API error: " + message)), ("data", List([]))])
  }

  /** What `get_economic_calendar_av` returns for a reply: the JSON, the text, or the error dictionary. */
  function CalendarResult(reply: Reply): (v: Value)
  {
    match reply
    case Json(j) => j
    case Raw(t) => Str(t)
    case RateLimit(m) => ApiErrorDict(m)
    case Failure(m) => ApiErrorDict(ExceptionText(m))
  }

  /**
   * `get_economic_calendar_av`: the parameters filled step by step and the
   * value returned; every exception of the request becomes the error
   * dictionary.
   */
  method GetEconomicCalendar(fromDate: string, toDate: string, importance: Option<string>, countries: Option<string>,
                             limit: Option<int>, env: Option<string>, current: Value,
                             fetch: Dict -> (int, string), decode: string -> Option<Value>)
    returns (params: Dict, result: Value)
    ensures params == CalendarParams(fromDate, toDate, importance, countries, limit)
    ensures result == CalendarResult(Request(CalendarFunction, params, env, current, fetch, decode))
  {
    var vs := CalendarValues(fromDate, toDate, importance, countries, limit);
    params := [];
    if vs[0].Some? {
      params := Put(params, FromKey, vs[0].value);
    }
    if vs[1].Some? {
      params := Put(params, ToKey, vs[1].value);
    }
    if vs[2].Some? {
      params := Put(params, ImportanceKey, vs[2].value);
    }
    if vs[3].Some? {
      params := Put(params, CountriesKey, vs[3].value);
    }
    if vs[4].Some? {
      params := Put(params, LimitKey, vs[4].value);
    }
    var reply := MakeApiRequest(CalendarFunction, params, env, current, fetch, decode);
    result := CalendarResult(reply);
  }

  // ------------------------------------------------------------ event fields

  /** `e.get(k1) or e.get(k2) or ... or default`. */
  function Pick(e: Dict, keys: seq<string>, default: Value): Value
  {
    if keys == [] then default
    else if Truthy(GetOr(e, keys[0], Null)) then GetOr(e, keys[0], Null)
    else Pick(e, keys[1..], default)
  }

  /** The pick is the first truthy field, or the default when none is truthy. */
  lemma {:induction false} PickFirst(e: Dict, keys: seq<string>, default: Value)
    ensures (forall i :: 0 <= i < |keys| ==> !Truthy(GetOr(e, keys[i], Null))) ==> Pick(e, keys, default) == default
    ensures (exists i :: 0 <= i < |keys| && Truthy(GetOr(e, keys[i], Null))) ==>
      exists i :: 0 <= i < |keys| && Truthy(GetOr(e, keys[i], Null)) && Pick(e, keys, default) == GetOr(e, keys[i], Null)
        && forall j :: 0 <= j < i ==> !Truthy(GetOr(e, keys[j], Null))
    decreases |keys|
  {
    if keys != [] && !Truthy(GetOr(e, keys[0], Null)) {
      PickFirst(e, keys[1..], default);
      assert forall i :: 0 < i < |keys| ==> keys[i] == keys[1..][i - 1];
      if exists i :: 0 <= i < |keys| && Truthy(GetOr(e, keys[i], Null)) {
        var i :| 0 <= i < |keys| && Truthy(GetOr(e, keys[i], Null));
        assert i > 0 && Truthy(GetOr(e, keys[1..][i - 1], Null));
        var i' :| 0 <= i' < |keys| - 1 && Truthy(GetOr(e, keys[1..][i'], Null))
          && Pick(e, keys, default) == GetOr(e, keys[1..][i'], Null)
          && forall j :: 0 <= j < i' ==> !Truthy(GetOr(e, keys[1..][j], Null));
        assert Pick(e, keys, default) == GetOr(e, keys[i' + 1], Null);
        assert forall j :: 0 <= j < i' + 1 ==> !Truthy(GetOr(e, keys[j], Null)) by {
          forall j | 0 <= j < i' + 1 ensures !Truthy(GetOr(e, keys[j], Null)) {
            if j > 0 { assert keys[j] == keys[1..][j - 1]; }
          }
        }
      }
    }
  }

  /** The date an event is grouped under. */
  function EventDate(e: Dict): Value
  {
    Pick(e, ["date", "Date", "timestamp"], Str("Unknown"))
  }

  /** An event without any date field is grouped under "Unknown". */
  lemma UndatedIsUnknown(e: Dict)
    requires !HasKey(e, "date") && !HasKey(e, "Date") && !HasKey(e, "timestamp")
    ensures EventDate(e) == Str("Unknown")
  {
    var keys := ["date", "Date", "timestamp"];
    forall i | 0 <= i < 3 ensures !Truthy(GetOr(e, keys[i], Null)) {}
    PickFirst(e, keys, Str("Unknown"));
  }

  /** The importance marker and its label. */
  function ImportanceLabel(importance: Value): (r: (string, string))
    ensures r.1 == "高影响" <==> importance == Str("high") || importance == Str("High")
    ensures r.1 == "中影响" <==> importance == Str("medium") || importance == Str("Medium")
    ensures r.1 == "低影响" <==> !(importance in [Str("high"), Str("High"), Str("medium"), Str("Medium")])
  {
    if importance == Str("high") || importance == Str("High") then ("\U{1F525}", "高影响")
    else if importance == Str("medium") || importance == Str("Medium") then ("\U{26A0}\U{FE0F}", "中影响")
    else ("\U{2139}\U{FE0F}", "低影响")
  }

  /** An event without an importance field counts as of medium importance. */
  lemma MissingImportanceIsMedium(e: Dict)
    requires !HasKey(e, "importance") && !HasKey(e, "Importance")
    ensures ImportanceLabel(Pick(e, ["importance", "Importance"], Str("medium"))).1 == "中影响"
  {
    var keys := ["importance", "Importance"];
    forall i | 0 <= i < 2 ensures !Truthy(GetOr(e, keys[i], Null)) {}
    PickFirst(e, keys, Str("medium"));
  }

  /** `str(v)`: a string is itself; `show` stands for the text of every other value. */
  function Text(v: Value, show: Value -> string): string
  {
    if v.Str? then v.s else show(v)
  }

  /** The values shown for an event: actual, forecast, previous, each unless missing or "None". */
  function DataInfo(e: Dict, show: Value -> string): seq<string>
  {
    var actual := Pick(e, ["actual", "Actual"], Str("N/A"));
    var previous := Pick(e, ["previous", "Previous"], Str("N/A"));
    var forecast := Pick(e, ["forecast", "Forecast"], Str("N/A"));
    (if actual != Str("N/A") && Text(actual, show) != "None" then ["实际值: " + Text(actual, show)] else [])
    + (if forecast != Str("N/A") && Text(forecast, show) != "None" then ["预测值: " + Text(forecast, show)] else [])
    + (if previous != Str("N/A") && Text(previous, show) != "None" then ["前值: " + Text(previous, show)] else [])
  }

  /** The lines of one event. */
  function EventLines(e: Dict, show: Value -> string): (lines: seq<string>)
    ensures 3 <= |lines| <= 5 && lines[|lines| - 1] == ""
  {
    var name := Pick(e, ["event", "Event", "name"], Str("Unknown Event"));
    var country := Pick(e, ["country", "Country", "region"], Str("Unknown"));
    var currency := Pick(e, ["currency", "Currency"], Str(""));
    var ml := ImportanceLabel(Pick(e, ["importance", "Importance"], Str("medium")));
    var info := DataInfo(e, show);
    var time := Pick(e, ["time", "Time", "timestamp"], Null);
    ["- **" + ml.0 + " " + Text(name, show) + "** (" + ml.1 + ")",
     "  国家: " + Text(country, show) + " | 货币: " + Text(currency, show)]
    + (if |info| > 0 then ["  " + Join(info, " | ")] else [])
    + (if Truthy(time) && Text(time, show) != "None" then ["  时间: " + Text(time, show)] else [])
    + [""]
  }

  // ---------------------------------------------------------------- grouping

  /** The groups: each date with its events, in first-seen order. */
  type Groups = seq<(Value, seq<Dict>)>

  /** A value Python can use as a dictionary key. */
  predicate Hashable(v: Value)
  {
    !v.List? && !v.Dict?
  }

  /** An event the loop can group. */
  predicate Groupable(e: Value)
  {
    e.Dict? && Hashable(EventDate(e.entries))
  }

  /** One step of the grouping loop: the event must be a dictionary with a hashable date. */
  function GroupStep(g: Groups, e: Value): (r: Result<Groups>)
    ensures r.Ok? <==> Groupable(e)
  {
    if !e.Dict? then Err("AttributeError: '" + TypeName(e) + "' object has no attribute 'get'")
    else if !Hashable(EventDate(e.entries)) then Err("TypeError: unhashable type: '" + TypeName(EventDate(e.entries)) + "'")
    else Ok(AddEvent(g, e.entries))
  }

  /** `events_by_date[date].append(event)`, creating the group when the date is new. */
  function AddEvent(g: Groups, e: Dict): Groups
  {
    var d := EventDate(e);
    Put(g, d, GetOr(g, d, []) + [e])
  }

  /** The grouping loop over `events`, stopped by the first event it cannot group. */
  function Grouped(events: seq<Value>): Result<Groups>
  {
    if events == [] then Ok([])
    else
      match Grouped(events[..|events| - 1])
      case Err(m) => Err(m)
      case Ok(g) => GroupStep(g, events[|events| - 1])
  }

  /** The events dated k, in order. */
  function DatedAs(events: seq<Value>, k: Value): (r: seq<Dict>)
    requires forall i :: 0 <= i < |events| ==> events[i].Dict?
  {
    if events == [] then []
    else
      var e := events[|events| - 1];
      DatedAs(events[..|events| - 1], k) + (if EventDate(e.entries) == k then [e.entries] else [])
  }

  /** Grouping succeeds only when every event can be grouped. */
  lemma {:induction false} GroupedAllGroupable(events: seq<Value>)
    ensures Grouped(events).Ok? ==> forall i :: 0 <= i < |events| ==> Groupable(events[i])
    decreases |events|
  {
    if events != [] {
      var init := events[..|events| - 1];
      GroupedAllGroupable(init);
      assert forall i :: 0 <= i < |init| ==> init[i] == events[i];
    }
  }

  /** Grouping succeeds when every event can be grouped. */
  lemma {:induction false} GroupableGrouped(events: seq<Value>)
    requires forall i :: 0 <= i < |events| ==> Groupable(events[i])
    ensures Grouped(events).Ok?
    decreases |events|
  {
    if events != [] {
      var init := events[..|events| - 1];
      assert forall i :: 0 <= i < |init| ==> init[i] == events[i];
      GroupableGrouped(init);
    }
  }

  /** Grouping fails exactly when some event cannot be grouped. */
  lemma GroupedOk(events: seq<Value>)
    ensures Grouped(events).Ok? <==> forall i :: 0 <= i < |events| ==> Groupable(events[i])
  {
    GroupedAllGroupable(events);
    if forall i :: 0 <= i < |events| ==> Groupable(events[i]) {
      GroupableGrouped(events);
    }
  }

  /** The dates of the groups are distinct. */
  lemma {:induction false} GroupedUnique(events: seq<Value>)
    requires Grouped(events).Ok?
    ensures Unique(Keys(Grouped(events).value))
    decreases |events|
  {
    if events != [] {
      var init := events[..|events| - 1];
      var e := events[|events| - 1];
      GroupedUnique(init);
      var g := Grouped(init).value;
      var d := EventDate(e.entries);
      assert Grouped(events).value == AddEvent(g, e.entries);
      PutUnique(g, d, GetOr(g, d, []) + [e.entries]);
    }
  }

  /**
   * The group of every date holds exactly the events dated so, in order, and
   * a date has a group exactly when some event carries it: each event lands
   * in exactly one group.
   */
  lemma {:induction false} GroupedPartition(events: seq<Value>, k: Value)
    requires Grouped(events).Ok?
    ensures forall i :: 0 <= i < |events| ==> events[i].Dict?
    ensures GetOr(Grouped(events).value, k, []) == DatedAs(events, k)
    ensures HasKey(Grouped(events).value, k) <==> |DatedAs(events, k)| > 0
    decreases |events|
  {
    GroupedAllGroupable(events);
    if events != [] {
      var init := events[..|events| - 1];
      var e := events[|events| - 1];
      assert forall i :: 0 <= i < |init| ==> init[i] == events[i];
      GroupedPartition(init, k);
      var g := Grouped(init).value;
      var d := EventDate(e.entries);
      assert Grouped(events).value == AddEvent(g, e.entries);
      PutGet(g, d, GetOr(g, d, []) + [e.entries], k);
    }
  }

  // ----------------------------------------------------------------- sorting

  /** Each string as a value. */
  function Wrap(a: seq<string>): (r: seq<Value>)
    ensures |r| == |a| && forall i :: 0 <= i < |a| ==> r[i] == Str(a[i])
  {
    if a == [] then [] else [Str(a[0])] + Wrap(a[1..])
  }

  /** The string of each date. */
  function Unwrap(keys: seq<Value>): (r: seq<string>)
    requires forall i :: 0 <= i < |keys| ==> keys[i].Str?
    ensures Wrap(r) == keys
  {
    if keys == [] then [] else [keys[0].s] + Unwrap(keys[1..])
  }

  /** A value occurs in the wrapped strings as often as its string occurs in the strings. */
  lemma {:induction false} WrapCount(a: seq<string>, v: Value)
    ensures multiset(Wrap(a))[v] == if v.Str? then multiset(a)[v.s] else 0
    decreases |a|
  {
    if a != [] {
      WrapCount(a[1..], v);
      assert a == [a[0]] + a[1..];
      assert Wrap(a) == [Str(a[0])] + Wrap(a[1..]);
    }
  }

  /** Wrapping keeps two permuted string lists permuted. */
  lemma WrapMultiset(a: seq<string>, b: seq<string>)
    requires multiset(a) == multiset(b)
    ensures multiset(Wrap(a)) == multiset(Wrap(b))
  {
    forall v ensures multiset(Wrap(a))[v] == multiset(Wrap(b))[v] {
      WrapCount(a, v);
      WrapCount(b, v);
    }
  }

  /** A date Python compares as a number: an int, a float or a bool. */
  predicate NumericDate(v: Value)
  {
    AsNumber(v).Some?
  }

  /** The number a date compares as; dates that are not numbers never reach the numeric sort. */
  function DateNumber(v: Value): real
  {
    if AsNumber(v).Some? then AsNumber(v).value else 0.0
  }

  predicate NumberSorted(s: seq<Value>)
  {
    forall i, j :: 0 <= i < j < |s| ==> DateNumber(s[i]) <= DateNumber(s[j])
  }

  /** Inserts a date before the first one not below it, so earlier dates stay ahead of equal ones. */
  function InsertByNumber(x: Value, s: seq<Value>): (r: seq<Value>)
    ensures |r| == |s| + 1
  {
    if s == [] || DateNumber(x) <= DateNumber(s[0]) then [x] + s else [s[0]] + InsertByNumber(x, s[1..])
  }

  /** Insertion adds exactly x. */
  lemma {:induction false} InsertByNumberMultiset(x: Value, s: seq<Value>)
    ensures multiset(InsertByNumber(x, s)) == multiset(s) + multiset{x}
  {
    if !(s == [] || DateNumber(x) <= DateNumber(s[0])) {
      InsertByNumberMultiset(x, s[1..]);
      assert s == [s[0]] + s[1..];
    }
  }

  lemma NumberSortedFront(a: Value, rest: seq<Value>)
    requires NumberSorted(rest) && forall y :: y in rest ==> DateNumber(a) <= DateNumber(y)
    ensures NumberSorted([a] + rest)
  {
    forall i, j | 0 <= i < j < |rest| + 1
      ensures DateNumber(([a] + rest)[i]) <= DateNumber(([a] + rest)[j])
    {
      if i > 0 {
        assert ([a] + rest)[i] == rest[i - 1];
      }
      assert ([a] + rest)[j] == rest[j - 1] && rest[j - 1] in rest;
    }
  }

  /** Insertion into a sorted sequence keeps it sorted. */
  lemma {:induction false} InsertByNumberSorted(x: Value, s: seq<Value>)
    requires NumberSorted(s)
    ensures NumberSorted(InsertByNumber(x, s))
  {
    if !(s == [] || DateNumber(x) <= DateNumber(s[0])) {
      var rest := InsertByNumber(x, s[1..]);
      InsertByNumberSorted(x, s[1..]);
      InsertByNumberMultiset(x, s[1..]);
      forall y | y in rest
        ensures DateNumber(s[0]) <= DateNumber(y)
      {
        assert y in multiset(rest);
        if y != x {
          assert y in multiset(s[1..]);
          var k :| 0 <= k < |s[1..]| && s[1..][k] == y;
          assert s[k + 1] == y;
        }
      }
      NumberSortedFront(s[0], rest);
    } else {
      NumberSortedFront(x, s);
    }
  }

  /** `sorted` of numeric dates: a stable sort by value. */
  function SortByNumber(s: seq<Value>): (r: seq<Value>)
    ensures NumberSorted(r) && multiset(r) == multiset(s) && |r| == |s|
  {
    if s == [] then []
    else
      var t := SortByNumber(s[1..]);
      InsertByNumberMultiset(s[0], t);
      InsertByNumberSorted(s[0], t);
      assert s == [s[0]] + s[1..];
      InsertByNumber(s[0], t)
  }

  /**
   * `sorted(events_by_date.keys())`: a single date needs no comparison;
   * strings sort by code point, numbers (ints, floats, bools) by value;
   * any other mix of several dates is the comparison error.
   */
  function SortedDates(keys: seq<Value>): (r: Result<seq<Value>>)
    ensures r.Ok? <==> |keys| <= 1 || (forall i :: 0 <= i < |keys| ==> keys[i].Str?)
                                   || (forall i :: 0 <= i < |keys| ==> NumericDate(keys[i]))
    ensures r.Ok? ==> |r.value| == |keys|
    ensures (forall i :: 0 <= i < |keys| ==> NumericDate(keys[i])) ==>
      r.Ok? && multiset(r.value) == multiset(keys) && NumberSorted(r.value)
  {
    if |keys| <= 1 then Ok(keys)
    else if forall i :: 0 <= i < |keys| ==> keys[i].Str? then Ok(Wrap(SortStrings(Unwrap(keys))))
    else if forall i :: 0 <= i < |keys| ==> NumericDate(keys[i]) then Ok(SortByNumber(keys))
    else Err("TypeError: '<' not supported between instances of different types")
  }

  /** Sorted string dates are a permutation of the dates, each at most the next. */
  lemma SortedDatesOrdered(keys: seq<Value>)
    requires forall i :: 0 <= i < |keys| ==> keys[i].Str?
    ensures SortedDates(keys).Ok?
    ensures var r := SortedDates(keys).value;
      multiset(r) == multiset(keys)
      && forall i, j :: 0 <= i < j < |r| ==> r[i].Str? && r[j].Str? && StrLe(r[i].s, r[j].s)
  {
    if |keys| > 1 {
      var sorted := SortStrings(Unwrap(keys));
      assert SortedDates(keys) == Ok(Wrap(sorted));
      WrapMultiset(sorted, Unwrap(keys));
      var r := Wrap(sorted);
      forall i, j | 0 <= i < j < |r|
        ensures r[i].Str? && r[j].Str? && StrLe(r[i].s, r[j].s)
      {
        assert r[i] == Str(sorted[i]) && r[j] == Str(sorted[j]);
      }
    }
  }

  const MaxDates := 15

  /**
   * The rendered dates are the first fifteen of the sorted ones, and with
   * string dates none of the dates left out comes before a shown one.
   */
  lemma ShownAreEarliest(keys: seq<Value>, i: nat, j: nat)
    requires forall k :: 0 <= k < |keys| ==> keys[k].Str?
    requires i < |Take(SortedDates(keys).value, MaxDates)| <= j < |keys|
    ensures |Take(SortedDates(keys).value, MaxDates)| == MaxDates
    ensures var r := SortedDates(keys).value;
      Take(r, MaxDates)[i].Str? && r[j].Str? && StrLe(Take(r, MaxDates)[i].s, r[j].s)
  {
    SortedDatesOrdered(keys);
  }

  // --------------------------------------------------------------- rendering

  const ErrorPrefix := "Error retrieving economic calendar: "
  const NoEvents := "No upcoming economic events found from Alpha Vantage API"

  const Title := "# 经济日历 - Alpha Vantage API"
  const CountLabel := "**事件总数**: "

  /** The fixed header lines. */
  function HeaderLines(count: nat, now: string): seq<string>
  {
    [Title, CountLabel + NatToString(count), "**数据获取时间**: " + now,
     "**数据源**: Alpha Vantage ECONOMIC_CALENDAR API", ""]
  }

  /** The lines of the events of one day. */
  function DayLines(events: seq<Dict>, show: Value -> string): seq<string>
  {
    if events == [] then [] else DayLines(events[..|events| - 1], show) + EventLines(events[|events| - 1], show)
  }

  /** The lines of the days shown, each headed by its date. */
  function BodyLines(dates: seq<Value>, g: Groups, show: Value -> string): seq<string>
  {
    if dates == [] then []
    else
      var d := dates[|dates| - 1];
      BodyLines(dates[..|dates| - 1], g, show) + ["## " + Text(d, show)] + DayLines(GetOr(g, d, []), show)
  }

  /** Where the events come from: "data" when it is a list, "Economic Calendar Data", else the first list. */
  function FirstList(es: Dict): (v: Value)
    ensures v.List?
  {
    if es == [] then List([]) else if es[0].1.List? then es[0].1 else FirstList(es[1..])
  }

  function SelectEvents(es: Dict): Value
  {
    if HasKey(es, "data") && GetOr(es, "data", Null).List? then GetOr(es, "data", Null)
    else if HasKey(es, "Economic Calendar Data") then GetOr(es, "Economic Calendar Data", Null)
    else FirstList(es)
  }

  /** The events found in the data, or the report already decided: the error text, or an exception. */
  datatype Source = Events(events: Value) | Report(text: string) | Raises(error: string)

  /** The checks before the events: the "error" key, and the look-ups on data that is not a dictionary. */
  function Locate(data: Value, show: Value -> string): Source
  {
    match data
    case Dict(es) =>
      if HasKey(es, "error") then Report(ErrorPrefix + Text(GetOr(es, "error", Null), show)) else Events(SelectEvents(es))
    case List(xs) =>
      if Str("error") in xs || Str("data") in xs then Raises("TypeError: list indices must be integers or slices, not str")
      else Events(data)
    case Str(s) =>
      if Contains(s, "error") || Contains(s, "data") then Raises("TypeError: string indices must be integers, not 'str'")
      else if Contains(s, "Economic Calendar Data") then Raises("AttributeError: 'str' object has no attribute 'get'")
      else Raises("AttributeError: 'str' object has no attribute 'items'")
    case _ => Raises("TypeError: argument of type '" + TypeName(data) + "' is not iterable")
  }

  /** The items the grouping loop iterates over; only a list holds dictionaries. */
  function EventItems(events: Value): Result<seq<Value>>
  {
    match events
    case List(xs) => Ok(xs)
    case Str(_) => Err("AttributeError: 'str' object has no attribute 'get'")
    case Dict(_) => Err("AttributeError: 'str' object has no attribute 'get'")
    case _ => Err("TypeError: '" + TypeName(events) + "' object is not iterable")
  }

  /** The report of the grouped events: the header, then the first fifteen dates in order. */
  function Rendered(items: seq<Value>, now: string, show: Value -> string): (r: Result<string>)
  {
    match Grouped(items)
    case Err(e) => Err(e)
    case Ok(g) =>
      match SortedDates(Keys(g))
      case Err(e) => Err(e)
      case Ok(dates) => Ok(Join(HeaderLines(|items|, now) + BodyLines(Take(dates, MaxDates), g, show), "\n"))
  }

  /** `format_economic_calendar_for_display`; `now` is the formatted clock. */
  function Display(data: Value, now: string, show: Value -> string): (r: Result<string>)
  {
    match Locate(data, show)
    case Report(t) => Ok(t)
    case Raises(e) => Err(e)
    case Events(events) =>
      if !Truthy(events) then Ok(NoEvents)
      else
        match EventItems(events)
        case Err(e) => Err(e)
        case Ok(items) => Rendered(items, now, show)
  }

  /** A date that some event carries has an event dated so. */
  lemma {:induction false} DatedAsDated(events: seq<Value>, k: Value)
    requires forall i :: 0 <= i < |events| ==> events[i].Dict?
    requires |DatedAs(events, k)| > 0
    ensures exists i :: 0 <= i < |events| && EventDate(events[i].entries) == k
    decreases |events|
  {
    var init := events[..|events| - 1];
    var e := events[|events| - 1];
    if EventDate(e.entries) != k {
      assert forall i :: 0 <= i < |init| ==> init[i] == events[i];
      DatedAsDated(init, k);
      var i :| 0 <= i < |init| && EventDate(init[i].entries) == k;
      assert EventDate(events[i].entries) == k;
    }
  }

  /**
   * The usual response, a dictionary with a non-empty "data" list of events
   * dated by strings (or not dated at all), always gives a report.
   */
  lemma DisplayOfDatedEvents(es: Dict, xs: seq<Value>, now: string, show: Value -> string)
    requires !HasKey(es, "error") && Get(es, "data") == Some(List(xs)) && |xs| > 0
    requires forall i :: 0 <= i < |xs| ==> xs[i].Dict? && EventDate(xs[i].entries).Str?
    ensures Display(Dict(es), now, show).Ok?
  {
    assert HasKey(es, "data");
    assert Locate(Dict(es), show) == Events(List(xs));
    GroupableGrouped(xs);
    var g := Grouped(xs).value;
    forall i | 0 <= i < |Keys(g)| ensures Keys(g)[i].Str? {
      var k := Keys(g)[i];
      assert HasKey(g, k);
      GroupedPartition(xs, k);
      DatedAsDated(xs, k);
    }
  }

  /** A joined text starts with its first two lines. */
  lemma JoinStarts(lines: seq<string>, sep: string)
    requires |lines| >= 3
    ensures StartsWith(Join(lines, sep), lines[0] + sep + lines[1])
  {
    var p := lines[0] + sep + lines[1];
    assert Join(lines, sep) == lines[0] + sep + (lines[1] + sep + Join(lines[2..], sep)) by {
      assert lines[1..][0] == lines[1] && lines[1..][1..] == lines[2..];
    }
    assert Join(lines, sep) == p + (sep + Join(lines[2..], sep));
  }

  /** The header comes first, whatever follows it. */
  lemma HeaderFirst(count: nat, now: string, body: seq<string>)
    ensures StartsWith(Join(HeaderLines(count, now) + body, "\n"), Title + "\n" + CountLabel + NatToString(count))
  {
    var lines := HeaderLines(count, now) + body;
    assert lines[0] == Title && lines[1] == CountLabel + NatToString(count);
    JoinStarts(lines, "\n");
  }

  /** Every report of events starts with the title and the number of events. */
  lemma RenderedHeader(items: seq<Value>, now: string, show: Value -> string)
    requires Rendered(items, now, show).Ok?
    ensures StartsWith(Rendered(items, now, show).value, Title + "\n" + CountLabel + NatToString(|items|))
  {
    var g := Grouped(items).value;
    var dates := SortedDates(Keys(g)).value;
    HeaderFirst(|items|, now, BodyLines(Take(dates, MaxDates), g, show));
  }

  /** A dictionary with an "error" entry is reported as that error. */
  lemma ErrorReported(es: Dict, now: string, show: Value -> string)
    requires HasKey(es, "error")
    ensures Display(Dict(es), now, show) == Ok(ErrorPrefix + Text(GetOr(es, "error", Null), show))
  {
  }

  /** A failed request reaches the report as its error text. */
  lemma FailedRequestReported(reply: Reply, now: string, show: Value -> string)
    requires reply.RateLimit? || reply.Failure?
    ensures Display(CalendarResult(reply), now, show)
      == Ok(ErrorPrefix + "Alpha Vantage API error: " + (if reply.RateLimit? then reply.message else ExceptionText(reply.error)))
  {
    var m := if reply.RateLimit? then reply.message else ExceptionText(reply.error);
    var es := [("error", Str("Alpha Vantage API error: " + m)), ("data", List([]))];
    assert CalendarResult(reply) == Dict(es);
    assert Get(es, "error") == Some(Str("Alpha Vantage API error: " + m));
    assert HasKey(es, "error");
    ErrorReported(es, now, show);
    assert ErrorPrefix + "Alpha Vantage API error: " + m == ErrorPrefix + ("Alpha Vantage API error: " + m);
  }

  /** A dictionary without an error and without events gets the fixed message. */
  lemma NoEventsMessage(es: Dict, now: string, show: Value -> string)
    requires !HasKey(es, "error") && !Truthy(SelectEvents(es))
    ensures Display(Dict(es), now, show) == Ok(NoEvents)
  {
  }

  /** The dictionary form of the response: "data" with an empty list has no events. */
  lemma EmptyDataMessage(now: string, show: Value -> string)
    ensures Display(Dict([("data", List([]))]), now, show) == Ok(NoEvents)
  {
    assert Get([("data", List([]))], "data") == Some(List([]));
  }

  // ------------------------------------------------------------ the functions

  /** The grouping loop. */
  method GroupEvents(xs: seq<Value>) returns (r: Result<Groups>)
    ensures r == Grouped(xs)
  {
    var g: Groups := [];
    var i := 0;
    while i < |xs|
      invariant 0 <= i <= |xs|
      invariant Grouped(xs[..i]) == Ok(g)
    {
      assert xs[..i + 1][..i] == xs[..i];
      var step := GroupStep(g, xs[i]);
      if step.Err? {
        GroupedErrStays(xs, i + 1);
        return Err(step.msg);
      }
      g := step.value;
      i := i + 1;
    }
    assert xs[..i] == xs;
    r := Ok(g);
  }

  /** The loop over the events of one day. */
  method RenderDay(events: seq<Dict>, show: Value -> string) returns (lines: seq<string>)
    ensures lines == DayLines(events, show)
  {
    lines := [];
    var m := 0;
    while m < |events|
      invariant 0 <= m <= |events|
      invariant lines == DayLines(events[..m], show)
    {
      assert events[..m + 1][..m] == events[..m];
      lines := lines + EventLines(events[m], show);
      m := m + 1;
    }
    assert events[..m] == events;
  }

  /** The loop over the dates shown. */
  method RenderBody(shown: seq<Value>, g: Groups, show: Value -> string) returns (lines: seq<string>)
    ensures lines == BodyLines(shown, g, show)
  {
    lines := [];
    var k := 0;
    while k < |shown|
      invariant 0 <= k <= |shown|
      invariant lines == BodyLines(shown[..k], g, show)
    {
      assert shown[..k + 1][..k] == shown[..k];
      var day := RenderDay(GetOr(g, shown[k], []), show);
      lines := lines + ["## " + Text(shown[k], show)] + day;
      k := k + 1;
    }
    assert shown[..k] == shown;
  }

  /**
   * `format_economic_calendar_for_display`: the checks, the grouping loop,
   * the sort and the rendering loops.
   */
  method FormatForDisplay(data: Value, now: string, show: Value -> string) returns (r: Result<string>)
    ensures r == Display(data, now, show)
  {
    var source := Locate(data, show);
    if source.Report? {
      return Ok(source.text);
    }
    if source.Raises? {
      return Err(source.error);
    }
    if !Truthy(source.events) {
      return Ok(NoEvents);
    }
    var items := EventItems(source.events);
    if items.Err? {
      return Err(items.msg);
    }
    var grouped := GroupEvents(items.value);
    if grouped.Err? {
      return Err(grouped.msg);
    }
    var sorted := SortedDates(Keys(grouped.value));
    if sorted.Err? {
      return Err(sorted.msg);
    }
    var body := RenderBody(Take(sorted.value, MaxDates), grouped.value, show);
    r := Ok(Join(HeaderLines(|items.value|, now) + body, "\n"));
  }

  /** The first event the loop cannot group decides the error of the whole list. */
  lemma {:induction false} GroupedErrStays(events: seq<Value>, j: nat)
    requires j <= |events| && Grouped(events[..j]).Err?
    ensures Grouped(events) == Grouped(events[..j])
    decreases |events| - j
  {
    if j < |events| {
      var p := events[..j + 1];
      assert p[..|p| - 1] == events[..j];
      GroupedErrStays(events, j + 1);
    } else {
      assert events[..j] == events;
    }
  }

  const DefaultCountries := "US,EU,JP,CN,GB,CA,AU"

  /**
   * `get_economic_calendar_formatted`: today and the date `days_ahead` later
   * (from the clock) as "%Y-%m-%d", the main economies when no countries are
   * given, then the display; an exception becomes the error report.
   */
  method GetEconomicCalendarFormatted(today: string, futureDate: string, now: string, importance: Option<string>,
                                      countries: Option<string>, limit: Option<int>, env: Option<string>,
                                      current: Value, fetch: Dict -> (int, string),
                                      decode: string -> Option<Value>, show: Value -> string)
    returns (report: string)
    ensures var cs := if countries.Some? && |countries.value| > 0 then countries.value else DefaultCountries;
      var data := CalendarResult(Request(CalendarFunction, CalendarParams(today, futureDate, importance, Some(cs), limit),
                                         env, current, fetch, decode));
      match Display(data, now, show)
      case Ok(t) => report == t
      case Err(e) => report == "Error retrieving economic calendar from Alpha Vantage: " + ExceptionText(e)
  {
    var cs := if countries.Some? && |countries.value| > 0 then countries.value else DefaultCountries;
    var params, data := GetEconomicCalendar(today, futureDate, importance, Some(cs), limit, env, current, fetch, decode);
    var shown := FormatForDisplay(data, now, show);
    match shown
    case Ok(t) => report := t;
    case Err(e) => report := "Error retrieving economic calendar from Alpha Vantage: " + ExceptionText(e);
  }
}
