/**
 * The shared Alpha Vantage helpers: the API key from the environment, the
 * conversion of dates to the API's `YYYYMMDDTHHMM` form, the parameters of a
 * request and the classification of the response text. The environment
 * variable, the HTTP call and the JSON decoder are parameters.
 */
module AlphaVantageCommon {
  import opened Common

  type Dict = seq<(string, Value)>

  // ---------------------------------------------------------------- api key

  const KeyNotSet := "ValueError: ALPHA_VANTAGE_API_KEY environment variable is not set."

  /** `get_api_key`: the variable's value, an error when it is unset or empty. */
  function GetApiKey(env: Option<string>): (r: Result<string>)
    ensures r.Ok? <==> env.Some? && |env.value| > 0
    ensures r.Ok? ==> r.value == env.value
    ensures r.Err? ==> r.msg == KeyNotSet
  {
    if env.None? || |env.value| == 0 then Err(KeyNotSet) else Ok(env.value)
  }

  // ------------------------------------------------------------------ dates

  /** A `datetime`, reduced to the fields the API format prints. */
  datatype Stamp = Stamp(year: nat, month: nat, day: nat, hour: nat, minute: nat)

  /** The argument of `format_datetime_for_api`: a string, a `datetime`, or a value of another type. */
  datatype DateInput = Text(s: string) | DateTime(stamp: Stamp) | OtherType(typeName: string)

  predicate LeapYear(y: nat)
  {
    y % 4 == 0 && (y % 100 != 0 || y % 400 == 0)
  }

  function DaysInMonth(y: nat, m: nat): nat
    requires 1 <= m <= 12
  {
    if m == 2 then (if LeapYear(y) then 29 else 28)
    else if m == 4 || m == 6 || m == 9 || m == 11 then 30
    else 31
  }

  /** The fields a `datetime` object can hold. */
  predicate ValidStamp(t: Stamp)
  {
    1 <= t.year <= 9999 && 1 <= t.month <= 12 && 1 <= t.day <= DaysInMonth(t.year, t.month)
    && t.hour < 24 && t.minute < 60
  }

  function Digit(c: char): nat
    requires IsDigitChar(c)
  {
    c as int - '0' as int
  }

  predicate DigitIn(s: string, i: nat, lo: char, hi: char)
  {
    i < |s| && lo <= s[i] <= hi
  }

  /** `%Y`: four digits; the value and the index after them. */
  function YearField(s: string, i: nat): (r: Option<(nat, nat)>)
    ensures r.Some? ==> r.value.1 == i + 4 && r.value.0 <= 9999
  {
    if DigitIn(s, i, '0', '9') && DigitIn(s, i + 1, '0', '9') && DigitIn(s, i + 2, '0', '9') && DigitIn(s, i + 3, '0', '9')
    then Some((1000 * Digit(s[i]) + 100 * Digit(s[i + 1]) + 10 * Digit(s[i + 2]) + Digit(s[i + 3]), i + 4))
    else None
  }

  /** `%m`: the first of `1[0-2]`, `0[1-9]`, `[1-9]` that matches. */
  function MonthField(s: string, i: nat): (r: Option<(nat, nat)>)
    ensures r.Some? ==> 1 <= r.value.0 <= 12 && i < r.value.1 <= i + 2
  {
    if DigitIn(s, i, '1', '1') && DigitIn(s, i + 1, '0', '2') then Some((10 + Digit(s[i + 1]), i + 2))
    else if DigitIn(s, i, '0', '0') && DigitIn(s, i + 1, '1', '9') then Some((Digit(s[i + 1]), i + 2))
    else if DigitIn(s, i, '1', '9') then Some((Digit(s[i]), i + 1))
    else None
  }

  /** `%d`: the first of `3[01]`, `[12][0-9]`, `0[1-9]`, `[1-9]`, ` [1-9]` that matches. */
  function DayField(s: string, i: nat): (r: Option<(nat, nat)>)
    ensures r.Some? ==> 1 <= r.value.0 <= 31 && i < r.value.1 <= i + 2
  {
    if DigitIn(s, i, '3', '3') && DigitIn(s, i + 1, '0', '1') then Some((30 + Digit(s[i + 1]), i + 2))
    else if DigitIn(s, i, '1', '2') && DigitIn(s, i + 1, '0', '9') then Some((10 * Digit(s[i]) + Digit(s[i + 1]), i + 2))
    else if DigitIn(s, i, '0', '0') && DigitIn(s, i + 1, '1', '9') then Some((Digit(s[i + 1]), i + 2))
    else if DigitIn(s, i, '1', '9') then Some((Digit(s[i]), i + 1))
    else if i < |s| && s[i] == ' ' && DigitIn(s, i + 1, '1', '9') then Some((Digit(s[i + 1]), i + 2))
    else None
  }

  /** `%H`: the first of `2[0-3]`, `[01][0-9]`, `[0-9]` that matches. */
  function HourField(s: string, i: nat): (r: Option<(nat, nat)>)
    ensures r.Some? ==> r.value.0 < 24 && i < r.value.1 <= i + 2
  {
    if DigitIn(s, i, '2', '2') && DigitIn(s, i + 1, '0', '3') then Some((20 + Digit(s[i + 1]), i + 2))
    else if DigitIn(s, i, '0', '1') && DigitIn(s, i + 1, '0', '9') then Some((10 * Digit(s[i]) + Digit(s[i + 1]), i + 2))
    else if DigitIn(s, i, '0', '9') then Some((Digit(s[i]), i + 1))
    else None
  }

  /** `%M`: the first of `[0-5][0-9]`, `[0-9]` that matches. */
  function MinuteField(s: string, i: nat): (r: Option<(nat, nat)>)
    ensures r.Some? ==> r.value.0 < 60 && i < r.value.1 <= i + 2
  {
    if DigitIn(s, i, '0', '5') && DigitIn(s, i + 1, '0', '9') then Some((10 * Digit(s[i]) + Digit(s[i + 1]), i + 2))
    else if DigitIn(s, i, '0', '9') then Some((Digit(s[i]), i + 1))
    else None
  }

  /** The end of the whitespace run at i (the format's space matches one or more). */
  function SkipSpaces(s: string, i: nat): (j: nat)
    ensures i <= j && (j <= |s| || j == i)
    ensures forall k :: i <= k < j ==> IsSpace(s[k])
    decreases |s| - i
  {
    if i < |s| && IsSpace(s[i]) then SkipSpaces(s, i + 1) else i
  }

  predicate CharAt(s: string, i: nat, c: char)
  {
    i < |s| && s[i] == c
  }

  /** The date a parsed stamp names exists: year 0 and days past the month's end are refused. */
  function Checked(t: Stamp): (r: Option<Stamp>)
    requires 1 <= t.month <= 12
    ensures r.Some? <==> 1 <= t.year && t.day <= DaysInMonth(t.year, t.month)
    ensures r.Some? ==> r.value == t
  {
    if 1 <= t.year && t.day <= DaysInMonth(t.year, t.month) then Some(t) else None
  }

  /** `datetime.strptime(s, "%Y-%m-%d")`: the whole string must match. */
  function ParseDate(s: string): (r: Option<Stamp>)
  {
    match YearField(s, 0)
    case None => None
    case Some((y, i)) =>
      if !CharAt(s, i, '-') then None
      else match MonthField(s, i + 1)
        case None => None
        case Some((m, j)) =>
          if !CharAt(s, j, '-') then None
          else match DayField(s, j + 1)
            case None => None
            case Some((d, k)) => if k != |s| then None else Checked(Stamp(y, m, d, 0, 0))
  }

  /** The prefix of `s` that the `%Y-%m-%d` pattern matches: the fields read and where the match ends. */
  function DatePrefix(s: string): (r: Option<(Stamp, nat)>)
    ensures r.Some? ==> 1 <= r.value.0.month <= 12 && r.value.1 <= |s|
  {
    match YearField(s, 0)
    case None => None
    case Some((y, i)) =>
      if !CharAt(s, i, '-') then None
      else match MonthField(s, i + 1)
        case None => None
        case Some((m, j)) =>
          if !CharAt(s, j, '-') then None
          else match DayField(s, j + 1)
            case None => None
            case Some((d, k)) => Some((Stamp(y, m, d, 0, 0), k))
  }

  /**
   * The message of the `ValueError` that `datetime.strptime(s, "%Y-%m-%d")`
   * raises, in the order the library checks: no match, text left after the
   * match, year 0, a day past the end of the month; None when the date parses.
   */
  function DateError(s: string): (r: Option<string>)
    ensures r.None? <==> ParseDate(s).Some?
    ensures DatePrefix(s).None? ==> r == Some("time data '" + s + "' does not match format '%Y-%m-%d'")
    ensures DatePrefix(s).Some? && DatePrefix(s).value.1 < |s| ==>
      r == Some("unconverted data remains: " + s[DatePrefix(s).value.1..])
  {
    match DatePrefix(s)
    case None => Some("time data '" + s + "' does not match format '%Y-%m-%d'")
    case Some((t, k)) =>
      if k != |s| then Some("unconverted data remains: " + s[k..])
      else if t.year == 0 then Some("year 0 is out of range")
      else if t.day > DaysInMonth(t.year, t.month) then Some("day is out of range for month")
      else None
  }

  /** `datetime.strptime(s, "%Y-%m-%d %H:%M")`: the whole string must match. */
  function ParseDateTime(s: string): (r: Option<Stamp>)
  {
    match YearField(s, 0)
    case None => None
    case Some((y, i)) =>
      if !CharAt(s, i, '-') then None
      else match MonthField(s, i + 1)
        case None => None
        case Some((m, j)) =>
          if !CharAt(s, j, '-') then None
          else match DayField(s, j + 1)
            case None => None
            case Some((d, k)) =>
              var sp := SkipSpaces(s, k);
              if sp == k then None
              else match HourField(s, sp)
                case None => None
                case Some((h, l)) =>
                  if !CharAt(s, l, ':') then None
                  else match MinuteField(s, l + 1)
                    case None => None
                    case Some((mi, e)) => if e != |s| then None else Checked(Stamp(y, m, d, h, mi))
  }

  /** Every stamp the parsers return is a valid `datetime`; a date alone is at midnight. */
  lemma ParsedValid(s: string)
    ensures ParseDate(s).Some? ==>
      (ValidStamp(ParseDate(s).value) && ParseDate(s).value.hour == 0 && ParseDate(s).value.minute == 0)
    ensures ParseDateTime(s).Some? ==> ValidStamp(ParseDateTime(s).value)
  {
  }

  /** The last w decimal digits of n, leading zeros included. */
  function FixedDigits(n: nat, w: nat): (r: string)
    ensures |r| == w && forall i :: 0 <= i < w ==> IsDigitChar(r[i])
  {
    if w == 0 then [] else FixedDigits(n / 10, w - 1) + [DigitChar(n % 10)]
  }

  /** `n` printed with at least w digits: zero-padded below 10^w, in full otherwise. */
  function Pad(n: nat, w: nat): (r: string)
    ensures n < Pow10(w) ==> |r| == w
    ensures forall i :: 0 <= i < |r| ==> IsDigitChar(r[i])
  {
    if n < Pow10(w) then FixedDigits(n, w) else NatToString(n)
  }

  /** `strftime("%Y%m%dT%H%M")`. */
  function ApiStamp(t: Stamp): (r: string)
  {
    Pad(t.year, 4) + Pad(t.month, 2) + Pad(t.day, 2) + "T" + Pad(t.hour, 2) + Pad(t.minute, 2)
  }

  /** A valid stamp prints as thirteen characters: eight digits, 'T', four digits. */
  lemma ApiStampShape(t: Stamp)
    requires ValidStamp(t)
    ensures var r := ApiStamp(t);
      |r| == 13 && r[8] == 'T' && 'T' in r
      && forall i :: 0 <= i < 13 && i != 8 ==> IsDigitChar(r[i])
  {
    assert Pow10(2) == 100 && Pow10(4) == 10000;
    assert ApiStamp(t)[8] == 'T';
  }

  const BadType := "ValueError: Date must be string or datetime object, got <class '"

  /** `format_datetime_for_api`. */
  function FormatDatetimeForApi(input: DateInput): (r: Result<string>)
    ensures input.Text? && |input.s| == 13 && 'T' in input.s ==> r == Ok(input.s)
    ensures input.DateTime? ==> r == Ok(ApiStamp(input.stamp))
    ensures input.OtherType? ==> r.Err?
    ensures input.Text? && !(|input.s| == 13 && 'T' in input.s) ==>
      (r.Ok? <==> ParseDate(input.s).Some? || ParseDateTime(input.s).Some?)
  {
    match input
    case Text(s) =>
      if |s| == 13 && 'T' in s then Ok(s)
      else if ParseDate(s).Some? then Ok(ApiStamp(ParseDate(s).value))
      else if ParseDateTime(s).Some? then Ok(ApiStamp(ParseDateTime(s).value))
      else Err("ValueError: Unsupported date format: " + s)
    case DateTime(t) => Ok(ApiStamp(t))
    case OtherType(n) => Err(BadType + n + "'>")
  }

  /** Formatting is idempotent: every result of a valid input is passed through unchanged. */
  lemma FormatIdempotent(input: DateInput)
    requires input.DateTime? ==> ValidStamp(input.stamp)
    requires FormatDatetimeForApi(input).Ok?
    ensures var r := FormatDatetimeForApi(input).value;
      FormatDatetimeForApi(Text(r)) == Ok(r)
  {
    match input
    case Text(s) =>
      if !(|s| == 13 && 'T' in s) {
        ParsedValid(s);
        if ParseDate(s).Some? { ApiStampShape(ParseDate(s).value); }
        else { ApiStampShape(ParseDateTime(s).value); }
      }
    case DateTime(t) => ApiStampShape(t);
  }

  /** The value of the two digits at i. */
  function Two(s: string, i: nat): nat
    requires i + 1 < |s| && IsDigitChar(s[i]) && IsDigitChar(s[i + 1])
  {
    10 * Digit(s[i]) + Digit(s[i + 1])
  }

  /** The value of the four digits at i. */
  function Four(s: string, i: nat): nat
    requires i + 3 < |s| && forall k :: i <= k < i + 4 ==> IsDigitChar(s[k])
  {
    1000 * Digit(s[i]) + 100 * Digit(s[i + 1]) + 10 * Digit(s[i + 2]) + Digit(s[i + 3])
  }

  /** A two-digit month, day, hour or minute is read by its field with both digits. */
  lemma TwoDigitFields(s: string, i: nat)
    requires i + 1 < |s| && IsDigitChar(s[i]) && IsDigitChar(s[i + 1])
    ensures 1 <= Two(s, i) <= 12 ==> MonthField(s, i) == Some((Two(s, i), i + 2))
    ensures 1 <= Two(s, i) <= 31 ==> DayField(s, i) == Some((Two(s, i), i + 2))
    ensures Two(s, i) < 24 ==> HourField(s, i) == Some((Two(s, i), i + 2))
    ensures Two(s, i) < 60 ==> MinuteField(s, i) == Some((Two(s, i), i + 2))
  {
  }

  lemma DigitBack(c: char)
    requires IsDigitChar(c)
    ensures DigitChar(Digit(c)) == c
  {
  }

  /** Padding a number read from two digits gives the digits back. */
  lemma PadTwoBack(s: string, i: nat)
    requires i + 1 < |s| && IsDigitChar(s[i]) && IsDigitChar(s[i + 1])
    ensures Pad(Two(s, i), 2) == s[i..i + 2]
  {
    var a, b := Digit(s[i]), Digit(s[i + 1]);
    var n := 10 * a + b;
    assert n < Pow10(2);
    assert n / 10 == a && n % 10 == b;
    assert FixedDigits(a, 1) == [DigitChar(a)];
    DigitBack(s[i]);
    DigitBack(s[i + 1]);
  }

  /** Padding a number read from four digits gives the digits back. */
  lemma PadFourBack(s: string, i: nat)
    requires i + 3 < |s| && forall k :: i <= k < i + 4 ==> IsDigitChar(s[k])
    ensures Pad(Four(s, i), 4) == s[i..i + 4]
  {
    var a, b, c, d := Digit(s[i]), Digit(s[i + 1]), Digit(s[i + 2]), Digit(s[i + 3]);
    assert Four(s, i) < Pow10(4);
    FixedStep(0, a, 0);
    FixedStep(a, b, 1);
    FixedStep(10 * a + b, c, 2);
    FixedStep(100 * a + 10 * b + c, d, 3);
    assert FixedDigits(Four(s, i), 4) == [DigitChar(a), DigitChar(b), DigitChar(c), DigitChar(d)];
    DigitBack(s[i]);
    DigitBack(s[i + 1]);
    DigitBack(s[i + 2]);
    DigitBack(s[i + 3]);
  }

  /** One more digit at the right of a fixed-width number. */
  lemma FixedStep(m: nat, x: nat, w: nat)
    requires x < 10
    ensures FixedDigits(10 * m + x, w + 1) == FixedDigits(m, w) + [DigitChar(x)]
  {
    assert (10 * m + x) / 10 == m && (10 * m + x) % 10 == x;
  }

  /** The four digits at the start, as `%Y` reads them. */
  lemma YearReads(s: string)
    requires 3 < |s| && forall k :: 0 <= k < 4 ==> IsDigitChar(s[k])
    ensures YearField(s, 0) == Some((Four(s, 0), 4 as nat))
  {
  }

  /** The stamp spelled by "YYYY-MM-DD" or "YYYY-MM-DD HH:MM" at the same positions. */
  function Spelled(s: string, withTime: bool): Stamp
    requires (if withTime then |s| == 16 else |s| == 10)
    requires forall k :: 0 <= k < |s| && k != 4 && k != 7 && k != 10 && k != 13 ==> IsDigitChar(s[k])
  {
    Stamp(Four(s, 0), Two(s, 5), Two(s, 8), if withTime then Two(s, 11) else 0, if withTime then Two(s, 14) else 0)
  }

  /** Printing a spelled stamp puts its digits back in the API's order. */
  lemma SpelledPrints(s: string, withTime: bool)
    requires (if withTime then |s| == 16 else |s| == 10)
    requires forall k :: 0 <= k < |s| && k != 4 && k != 7 && k != 10 && k != 13 ==> IsDigitChar(s[k])
    ensures withTime ==> ApiStamp(Spelled(s, true)) == s[..4] + s[5..7] + s[8..10] + "T" + s[11..13] + s[14..16]
    ensures !withTime ==> ApiStamp(Spelled(s, false)) == s[..4] + s[5..7] + s[8..10] + "T0000"
  {
    if withTime {
      SpelledPrintsTime(s);
    } else {
      SpelledPrintsDate(s);
    }
  }

  /** Printing the stamp spelled by "YYYY-MM-DD HH:MM". */
  lemma SpelledPrintsTime(s: string)
    requires |s| == 16
    requires forall k :: 0 <= k < 16 && k != 4 && k != 7 && k != 10 && k != 13 ==> IsDigitChar(s[k])
    ensures ApiStamp(Spelled(s, true)) == s[..4] + s[5..7] + s[8..10] + "T" + s[11..13] + s[14..16]
  {
    var t := Spelled(s, true);
    assert t == Stamp(Four(s, 0), Two(s, 5), Two(s, 8), Two(s, 11), Two(s, 14));
    PadFourBack(s, 0);
    PadTwoBack(s, 5);
    PadTwoBack(s, 8);
    PadTwoBack(s, 11);
    PadTwoBack(s, 14);
  }

  /** Printing the stamp spelled by "YYYY-MM-DD", at midnight. */
  lemma SpelledPrintsDate(s: string)
    requires |s| == 10
    requires forall k :: 0 <= k < 10 && k != 4 && k != 7 ==> IsDigitChar(s[k])
    ensures ApiStamp(Spelled(s, false)) == s[..4] + s[5..7] + s[8..10] + "T0000"
  {
    var t := Spelled(s, false);
    assert t == Stamp(Four(s, 0), Two(s, 5), Two(s, 8), 0, 0);
    PadFourBack(s, 0);
    PadTwoBack(s, 5);
    PadTwoBack(s, 8);
    assert Pad(0, 2) == "00" by {
      assert 0 < Pow10(2);
    }
  }

  /** "YYYY-MM-DD" of an existing date becomes "YYYYMMDDT0000". */
  lemma DateOnlyForm(s: string)
    requires |s| == 10 && s[4] == '-' && s[7] == '-'
    requires forall k :: 0 <= k < 10 && k != 4 && k != 7 ==> IsDigitChar(s[k])
    requires ValidStamp(Spelled(s, false))
    ensures FormatDatetimeForApi(Text(s)) == Ok(s[..4] + s[5..7] + s[8..10] + "T0000")
  {
    var t := Spelled(s, false);
    assert !('T' in s) by {
      forall k | 0 <= k < 10 ensures s[k] != 'T' {
        assert k == 4 || k == 7 || IsDigitChar(s[k]);
      }
    }
    YearReads(s);
    TwoDigitFields(s, 5);
    TwoDigitFields(s, 8);
    assert ParseDate(s) == Some(t);
    SpelledPrints(s, false);
  }

  /** "YYYY-MM-DD HH:MM" of an existing date and time becomes "YYYYMMDDTHHMM". */
  lemma DateTimeForm(s: string)
    requires |s| == 16 && s[4] == '-' && s[7] == '-' && s[10] == ' ' && s[13] == ':'
    requires forall k :: 0 <= k < 16 && k != 4 && k != 7 && k != 10 && k != 13 ==> IsDigitChar(s[k])
    requires ValidStamp(Spelled(s, true))
    ensures FormatDatetimeForApi(Text(s)) == Ok(s[..4] + s[5..7] + s[8..10] + "T" + s[11..13] + s[14..16])
  {
    var t := Spelled(s, true);
    YearReads(s);
    TwoDigitFields(s, 5);
    TwoDigitFields(s, 8);
    TwoDigitFields(s, 11);
    TwoDigitFields(s, 14);
    assert ParseDate(s).None?;
    assert SkipSpaces(s, 11) == 11;
    assert SkipSpaces(s, 10) == 11;
    assert ParseDateTime(s) == Some(t);
    SpelledPrints(s, true);
  }

  // ------------------------------------------------------------- parameters

  /** `d.pop(k)`: the dictionary without the entry under k. */
  function Remove(d: Dict, k: string): (r: Dict)
    ensures !HasKey(r, k)
    ensures forall n :: n != k ==> Get(r, n) == Get(d, n)
  {
    if |d| == 0 then []
    else if d[0].0 == k then Remove(d[1..], k)
    else [d[0]] + Remove(d[1..], k)
  }

  /** `d[k] = v` when there is a value. */
  function PutOpt(d: Dict, k: string, v: Option<Value>): Dict
  {
    if v.Some? then Put(d, k, v.value) else d
  }

  /** Reading back after an optional assignment. */
  lemma {:induction false} PutOptGet(d: Dict, k: string, v: Option<Value>, m: string)
    ensures Get(PutOpt(d, k, v), m) == if m == k && v.Some? then v else Get(d, m)
  {
    if v.Some? {
      PutGet(d, k, v.value, m);
    }
  }

  const FunctionKey := "function"
  const ApiKeyKey := "apikey"
  const SourceKey := "source"
  const EntitlementKey := "entitlement"
  const Source := "trading_agents"

  lemma ParamNamesDistinct()
    ensures FunctionKey != ApiKeyKey && FunctionKey != SourceKey && FunctionKey != EntitlementKey
    ensures ApiKeyKey != SourceKey && ApiKeyKey != EntitlementKey && SourceKey != EntitlementKey
  {
    assert FunctionKey[0] == 'f' && ApiKeyKey[0] == 'a' && SourceKey[0] == 's' && EntitlementKey[0] == 'e';
  }

  /**
   * The parameters `_make_api_request` sends: a copy of the caller's with
   * the function, the key and the source set, and the entitlement of the
   * parameters or else the module's current one; a falsy entitlement is
   * dropped.
   */
  function RequestParams(params: Dict, functionName: string, apiKey: string, current: Value): (r: Dict)
  {
    var base := Put(Put(Put(params, FunctionKey, Str(functionName)), ApiKeyKey, Str(apiKey)), SourceKey, Str(Source));
    var own := GetOr(base, EntitlementKey, Null);
    var entitlement := if Truthy(own) then own else current;
    if Truthy(entitlement) then Put(base, EntitlementKey, entitlement)
    else if HasKey(base, EntitlementKey) then Remove(base, EntitlementKey)
    else base
  }

  /** What the request carries: the three fixed entries, the entitlement rule, and every other parameter as given. */
  lemma RequestParamsFields(params: Dict, functionName: string, apiKey: string, current: Value, k: string)
    ensures var r := RequestParams(params, functionName, apiKey, current);
      Get(r, FunctionKey) == Some(Str(functionName))
      && Get(r, ApiKeyKey) == Some(Str(apiKey))
      && Get(r, SourceKey) == Some(Str(Source))
      && (Truthy(GetOr(params, EntitlementKey, Null)) ==> Get(r, EntitlementKey) == Get(params, EntitlementKey))
      && (!Truthy(GetOr(params, EntitlementKey, Null)) && Truthy(current) ==> Get(r, EntitlementKey) == Some(current))
      && (!Truthy(GetOr(params, EntitlementKey, Null)) && !Truthy(current) ==> !HasKey(r, EntitlementKey))
      && (k != FunctionKey && k != ApiKeyKey && k != SourceKey && k != EntitlementKey ==> Get(r, k) == Get(params, k))
  {
    ParamNamesDistinct();
    var p1 := Put(params, FunctionKey, Str(functionName));
    var p2 := Put(p1, ApiKeyKey, Str(apiKey));
    var base := Put(p2, SourceKey, Str(Source));
    forall n: string {:trigger Get(base, n)}
      ensures Get(base, n) == if n == SourceKey then Some(Str(Source))
                              else if n == ApiKeyKey then Some(Str(apiKey))
                              else if n == FunctionKey then Some(Str(functionName))
                              else Get(params, n)
    {
      PutGet(params, FunctionKey, Str(functionName), n);
      PutGet(p1, ApiKeyKey, Str(apiKey), n);
      PutGet(p2, SourceKey, Str(Source), n);
    }
    assert Get(base, EntitlementKey) == Get(params, EntitlementKey);
    var own := GetOr(base, EntitlementKey, Null);
    var e := if Truthy(own) then own else current;
    if Truthy(e) {
      PutGet(base, EntitlementKey, e, k);
      PutGet(base, EntitlementKey, e, FunctionKey);
      PutGet(base, EntitlementKey, e, ApiKeyKey);
      PutGet(base, EntitlementKey, e, SourceKey);
    }
    assert Get(base, FunctionKey) == Some(Str(functionName));
    assert Get(base, ApiKeyKey) == Some(Str(apiKey));
  }

  // -------------------------------------------------------------- responses

  /** What `_make_api_request` returns or raises. */
  datatype Reply = Json(json: Value) | Raw(text: string) | RateLimit(message: string) | Failure(error: string)

  const NewsSentiment := "NEWS_SENTIMENT"

  const JsonKeys: seq<string> := ["Meta Data", "Time Series", "Technical Analysis", "feed"]

  /** The name Python gives the type of a JSON value. */
  function TypeName(v: Value): string
  {
    match v
    case Null => "NoneType"
    case Bool(_) => "bool"
    case Int(_) => "int"
    case Num(_) => "float"
    case Str(_) => "str"
    case List(_) => "list"
    case Dict(_) => "dict"
  }

  /** `"Information" in j` and `j["Information"]` for each kind of JSON value. */
  function Information(j: Value): (r: Result<Option<Value>>)
    ensures j.Dict? ==> r == Ok(Get(j.entries, "Information"))
  {
    match j
    case Dict(es) => Ok(Get(es, "Information"))
    case List(xs) => if Str("Information") in xs then Err("TypeError: list indices must be integers or slices, not str") else Ok(None)
    case Str(s) => if Contains(s, "Information") then Err("TypeError: string indices must be integers, not 'str'") else Ok(None)
    case _ => Err("TypeError: argument of type '" + TypeName(j) + "' is not iterable")
  }

  /** The information message speaks of the rate limit or of the API key, in any case. */
  predicate RateLimitText(info: string)
  {
    Contains(Lower(info), "rate limit") || Contains(Lower(info), "api key")
  }

  /** One of the response structures that are returned as JSON. */
  predicate KnownStructure(j: Value)
  {
    j.Dict? && exists i :: 0 <= i < |JsonKeys| && HasKey(j.entries, JsonKeys[i])
  }

  /** The classification of a successful response; `parsed` is `json.loads(text)`, `None` when it does not decode. */
  function Classify(functionName: string, text: string, parsed: Option<Value>): (r: Reply)
  {
    if parsed.None? then Raw(text)
    else
      var j := parsed.value;
      match Information(j)
      case Err(e) => Failure(e)
      case Ok(info) =>
        if info.Some? && !info.value.Str? then Failure("AttributeError: '" + TypeName(info.value) + "' object has no attribute 'lower'")
        else if info.Some? && RateLimitText(info.value.s) then RateLimit("Alpha Vantage rate limit exceeded: " + info.value.s)
        else if functionName == NewsSentiment then Json(j)
        else if KnownStructure(j) then Json(j)
        else Raw(text)
  }

  /**
   * The classification never invents content: JSON is what the text decodes
   * to, raw text is the response text itself.
   */
  lemma ClassifyFaithful(functionName: string, text: string, parsed: Option<Value>)
    ensures var r := Classify(functionName, text, parsed);
      (r.Json? ==> parsed == Some(r.json)) && (r.Raw? ==> r.text == text)
      && (parsed.None? ==> r == Raw(text))
  {
  }

  /** A decoded dictionary is a rate-limit error exactly when its string "Information" speaks of the limit or the key. */
  lemma RateLimitExactly(functionName: string, text: string, es: Dict)
    ensures Classify(functionName, text, Some(Dict(es))).RateLimit? <==>
      (var info := Get(es, "Information"); info.Some? && info.value.Str? && RateLimitText(info.value.s))
  {
  }

  /** Without a rate-limit message, news responses are always JSON and other dictionaries are JSON exactly when they have a known structure. */
  lemma JsonWhenExpected(functionName: string, text: string, es: Dict)
    requires !HasKey(es, "Information")
    ensures functionName == NewsSentiment ==> Classify(functionName, text, Some(Dict(es))) == Json(Dict(es))
    ensures functionName != NewsSentiment ==>
      (Classify(functionName, text, Some(Dict(es))) == Json(Dict(es)) <==> KnownStructure(Dict(es)))
    ensures functionName != NewsSentiment && !KnownStructure(Dict(es)) ==> Classify(functionName, text, Some(Dict(es))) == Raw(text)
  {
  }

  /** `requests.get(...).raise_for_status()` raises on the client and server error codes. */
  predicate HttpError(status: int)
  {
    400 <= status < 600
  }

  /**
   * `_make_api_request(function_name, params)`. `env` is the key's
   * environment variable, `current` the module's current entitlement, `fetch`
   * the HTTP call (status and text for the parameters sent) and `decode` the
   * JSON decoder.
   */
  function Request(functionName: string, params: Dict, env: Option<string>, current: Value,
                   fetch: Dict -> (int, string), decode: string -> Option<Value>): (r: Reply)
  {
    match GetApiKey(env)
    case Err(m) => Failure(m)
    case Ok(key) =>
      var (status, text) := fetch(RequestParams(params, functionName, key, current));
      if HttpError(status) then Failure("HTTPError: " + IntToString(status))
      else Classify(functionName, text, decode(text))
  }

  /** The API is called only with a key, and what comes back is the classification of its response to the parameters built. */
  lemma RequestNeedsKey(functionName: string, params: Dict, env: Option<string>, current: Value,
                        fetch: Dict -> (int, string), decode: string -> Option<Value>)
    ensures var r := Request(functionName, params, env, current, fetch, decode);
      (GetApiKey(env).Err? ==> r == Failure(KeyNotSet))
      && (GetApiKey(env).Ok? ==>
            var (status, text) := fetch(RequestParams(params, functionName, env.value, current));
            (HttpError(status) ==> r.Failure?)
            && (!HttpError(status) ==> r == Classify(functionName, text, decode(text))))
  {
  }

  /** The steps of `_make_api_request`: copy, update, entitlement, request, classification. */
  method MakeApiRequest(functionName: string, params: Dict, env: Option<string>, current: Value,
                        fetch: Dict -> (int, string), decode: string -> Option<Value>)
    returns (r: Reply)
    ensures r == Request(functionName, params, env, current, fetch, decode)
  {
    var key := GetApiKey(env);
    if key.Err? {
      return Failure(key.msg);
    }
    var apiParams := params;
    apiParams := Put(apiParams, FunctionKey, Str(functionName));
    apiParams := Put(apiParams, ApiKeyKey, Str(key.value));
    apiParams := Put(apiParams, SourceKey, Str(Source));
    var entitlement := GetOr(apiParams, EntitlementKey, Null);
    if !Truthy(entitlement) {
      entitlement := current;
    }
    if Truthy(entitlement) {
      apiParams := Put(apiParams, EntitlementKey, entitlement);
    } else if HasKey(apiParams, EntitlementKey) {
      apiParams := Remove(apiParams, EntitlementKey);
    }
    assert apiParams == RequestParams(params, functionName, key.value, current);
    var (status, text) := fetch(apiParams);
    if HttpError(status) {
      return Failure("HTTPError: " + IntToString(status));
    }
    r := Classify(functionName, text, decode(text));
  }
}
