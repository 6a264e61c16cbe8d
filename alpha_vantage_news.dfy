/**
 * The news request of the Alpha Vantage vendor: `get_news` fills the
 * request parameters key by key and sends a `NEWS_SENTIMENT` request.
 * Dates arrive as strings, with "" standing for a missing one.
 */
module AlphaVantageNews {
  import opened Common
  import opened AlphaVantageCommon

  /** `s.replace("/", "")` removes every slash and keeps a slash-free text as it is. */
  lemma {:induction false} SlashesRemoved(s: string)
    ensures forall i :: 0 <= i < |Replace(s, "/", "")| ==> Replace(s, "/", "")[i] != '/'
    ensures (forall i :: 0 <= i < |s| ==> s[i] != '/') ==> Replace(s, "/", "") == s
    decreases |s|
  {
    if |s| >= 1 {
      SlashesRemoved(s[1..]);
      assert s[..1] == [s[0]];
      if s[..1] == "/" {
        assert Replace(s, "/", "") == Replace(s[1..], "/", "");
      } else {
        assert Replace(s, "/", "") == [s[0]] + Replace(s[1..], "/", "");
      }
    }
  }

  /** The Alpha Vantage spelling of a pair: no slash, upper case. */
  function FormattedTicker(t: string): (r: string)
  {
    Upper(Replace(t, "/", ""))
  }

  /** Upper-casing never introduces a slash. */
  lemma UpperKeepsSlashless(s: string)
    requires forall i :: 0 <= i < |s| ==> s[i] != '/'
    ensures forall i :: 0 <= i < |Upper(s)| ==> Upper(s)[i] != '/'
  {
  }

  /** Formatting a ticker twice changes nothing more. */
  lemma FormattedTickerIdempotent(t: string)
    ensures FormattedTicker(FormattedTicker(t)) == FormattedTicker(t)
  {
    var u := FormattedTicker(t);
    SlashesRemoved(t);
    UpperKeepsSlashless(Replace(t, "/", ""));
    SlashesRemoved(u);
    assert forall i :: 0 <= i < |u| ==> UpperChar(u[i]) == u[i];
  }

  /** A pair written "base/quote" with slash-free codes is sent as the two codes joined and upper-cased. */
  lemma FormattedPair(base: string, quote: string)
    requires forall i :: 0 <= i < |base| ==> base[i] != '/'
    requires forall i :: 0 <= i < |quote| ==> quote[i] != '/'
    ensures FormattedTicker(base + "/" + quote) == Upper(base + quote)
  {
    JoinReplaced(base, quote);
  }

  /** Removing the slashes from "base/quote" leaves the codes joined. */
  lemma {:induction false} JoinReplaced(base: string, quote: string)
    requires forall i :: 0 <= i < |base| ==> base[i] != '/'
    requires forall i :: 0 <= i < |quote| ==> quote[i] != '/'
    ensures Replace(base + "/" + quote, "/", "") == base + quote
    decreases |base|
  {
    var s := base + "/" + quote;
    if |base| == 0 {
      assert s[..1] == "/" && s[1..] == quote;
      SlashesRemoved(quote);
    } else {
      var rest := base[1..] + "/" + quote;
      assert s == [base[0]] + rest;
      calc {
        Replace(s, "/", "");
        { ReplaceKeep(base[0], rest); }
        [base[0]] + Replace(rest, "/", "");
        { JoinReplaced(base[1..], quote); }
        [base[0]] + (base[1..] + quote);
        base + quote;
      }
    }
  }

  /** A character other than the slash passes through the slash removal. */
  lemma ReplaceKeep(c: char, s: string)
    requires c != '/'
    ensures Replace([c] + s, "/", "") == [c] + Replace(s, "/", "")
  {
    assert ([c] + s)[1..] == s;
  }

  /** The formatted date, when the date is given and formats. */
  function DateParam(date: string): (r: Option<Value>)
    ensures r.Some? <==> |date| > 0 && FormatDatetimeForApi(Text(date)).Ok?
    ensures r.Some? ==> r.value == Str(FormatDatetimeForApi(Text(date)).value)
  {
    if |date| > 0 && FormatDatetimeForApi(Text(date)).Ok? then Some(Str(FormatDatetimeForApi(Text(date)).value)) else None
  }

  /** The parameter names `get_news` may set, in the order it sets them. */
  const TimeFrom := "time_from"
  const TimeTo := "time_to"
  const Topics := "topics"
  const Sort := "sort"
  const Limit := "limit"
  const Tickers := "tickers"
  const NewsNames: seq<string> := [TimeFrom, TimeTo, Topics, Sort, Limit, Tickers]

  lemma NewsNamesDistinct()
    ensures forall i, j :: 0 <= i < j < 6 ==> NewsNames[i] != NewsNames[j]
  {
    var lengths := [9, 7, 6, 4, 5, 7];
    forall i | 0 <= i < 6 ensures |NewsNames[i]| == lengths[i] {}
    assert NewsNames[1][2] != NewsNames[5][2];
  }

  /** The six assignments to the names n, in order, the first two and the last optional. */
  function Assigned(n: seq<string>, vs: seq<Option<Value>>): (d: Dict)
    requires |n| == 6 && |vs| == 6
  {
    PutOpt(PutOpt(PutOpt(PutOpt(PutOpt(PutOpt([], n[0], vs[0]), n[1], vs[1]), n[2], vs[2]), n[3], vs[3]), n[4], vs[4]), n[5], vs[5])
  }

  /** With distinct names, each name reads back the value assigned to it, or nothing. */
  lemma AssignedReads(n: seq<string>, vs: seq<Option<Value>>, i: nat)
    requires |n| == 6 && |vs| == 6 && i < 6
    requires forall a, b :: 0 <= a < b < 6 ==> n[a] != n[b]
    ensures Get(Assigned(n, vs), n[i]) == vs[i]
  {
    var m := n[i];
    var d0: Dict := [];
    var d1 := PutOpt(d0, n[0], vs[0]);
    var d2 := PutOpt(d1, n[1], vs[1]);
    var d3 := PutOpt(d2, n[2], vs[2]);
    var d4 := PutOpt(d3, n[3], vs[3]);
    var d5 := PutOpt(d4, n[4], vs[4]);
    PutOptGet(d0, n[0], vs[0], m);
    PutOptGet(d1, n[1], vs[1], m);
    PutOptGet(d2, n[2], vs[2], m);
    PutOptGet(d3, n[3], vs[3], m);
    PutOptGet(d4, n[4], vs[4], m);
    PutOptGet(d5, n[5], vs[5], m);
  }

  /** The six values `get_news` assigns, in the order of `NewsNames`; `None` where it skips the name. */
  function NewsValues(ticker: Option<string>, startDate: string, endDate: string, topics: Option<string>,
                      limit: Option<int>): (vs: seq<Option<Value>>)
    ensures |vs| == 6
  {
    [DateParam(startDate), DateParam(endDate),
     Some(Str(if topics.Some? && |topics.value| > 0 then topics.value else "forex")),
     Some(Str("LATEST")),
     Some(Str(if limit.Some? && limit.value != 0 then IntToString(limit.value) else "50")),
     if ticker.Some? && |Strip(ticker.value)| > 0 then Some(Str(FormattedTicker(ticker.value))) else None]
  }

  /** The parameters of `get_news`. */
  function NewsParams(ticker: Option<string>, startDate: string, endDate: string, topics: Option<string>,
                      limit: Option<int>): Dict
  {
    Assigned(NewsNames, NewsValues(ticker, startDate, endDate, topics, limit))
  }

  /**
   * What the news request carries: the topics or "forex", "LATEST", the
   * limit or "50", the formatted ticker exactly when it is not blank, and
   * each date exactly when it is given and formats.
   */
  lemma NewsParamsFields(ticker: Option<string>, startDate: string, endDate: string, topics: Option<string>,
                         limit: Option<int>)
    ensures var p := NewsParams(ticker, startDate, endDate, topics, limit);
      Get(p, Topics) == Some(Str(if topics.Some? && |topics.value| > 0 then topics.value else "forex"))
      && Get(p, Sort) == Some(Str("LATEST"))
      && Get(p, Limit) == Some(Str(if limit.Some? && limit.value != 0 then IntToString(limit.value) else "50"))
      && (HasKey(p, Tickers) <==> ticker.Some? && |Strip(ticker.value)| > 0)
      && (HasKey(p, Tickers) ==> Get(p, Tickers) == Some(Str(FormattedTicker(ticker.value))))
      && (HasKey(p, TimeFrom) <==> |startDate| > 0 && FormatDatetimeForApi(Text(startDate)).Ok?)
      && Get(p, TimeFrom) == DateParam(startDate)
      && (HasKey(p, TimeTo) <==> |endDate| > 0 && FormatDatetimeForApi(Text(endDate)).Ok?)
      && Get(p, TimeTo) == DateParam(endDate)
  {
    var vs := NewsValues(ticker, startDate, endDate, topics, limit);
    NewsNamesDistinct();
    forall i | 0 <= i < 6 ensures Get(NewsParams(ticker, startDate, endDate, topics, limit), NewsNames[i]) == vs[i] {
      AssignedReads(NewsNames, vs, i);
    }
  }

  /**
   * `get_news`: the parameters it fills, key by key, and the reply of the
   * request. `env`, `current`, `fetch` and `decode` are those of
   * `_make_api_request`.
   */
  method GetNews(ticker: Option<string>, startDate: string, endDate: string, topics: Option<string>, limit: Option<int>,
                 env: Option<string>, current: Value, fetch: Dict -> (int, string), decode: string -> Option<Value>)
    returns (params: Dict, r: Reply)
    ensures params == NewsParams(ticker, startDate, endDate, topics, limit)
    ensures r == Request(NewsSentiment, params, env, current, fetch, decode)
  {
    var vs := NewsValues(ticker, startDate, endDate, topics, limit);
    params := [];
    var from := DateParam(startDate);
    if from.Some? {
      params := Put(params, TimeFrom, from.value);
    }
    var to := DateParam(endDate);
    if to.Some? {
      params := Put(params, TimeTo, to.value);
    }
    params := Put(params, Topics, vs[2].value);
    params := Put(params, Sort, Str("LATEST"));
    params := Put(params, Limit, vs[4].value);
    if vs[5].Some? {
      params := Put(params, Tickers, vs[5].value);
    }
    r := MakeApiRequest(NewsSentiment, params, env, current, fetch, decode);
  }
}
