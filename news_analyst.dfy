/**
 * The optimised news analyst: a time-to-live cache of fetched news, the
 * simulated feed used when the news vendor is unavailable, the analysis
 * written without the language model, the node's pass over the feed that
 * counts sentiment labels, and the choice of the final report.
 *
 * Clock readings are parameters: `now` stands for `time.time()`, `hour`
 * for the `%Y%m%d%H` bucket of the cache key, and the node's two deadline
 * checks are the booleans `fetchLate` and `late`.
 */
module NewsAnalyst {
  import opened Common
  import AlphaVantageCommon

  // ---------------------------------------------------------------- cache

  /** One cache entry: the stored data and the time it was stored. */
  datatype Entry = Entry(data: Value, timestamp: real)

  type Cache = seq<(string, Entry)>

  /** The text `get_cache_key` hashes; the hash itself is not modelled. */
  function CacheKey(ticker: string, limit: int, daysBack: int, hour: string): (r: string)
    ensures |r| > |ticker|
  {
    ticker + "_" + IntToString(limit) + "_" + IntToString(daysBack) + "_" + hour
  }

  /** The condition `_clean_expired` deletes an entry under. */
  predicate Expired(e: Entry, now: real, ttl: real)
  {
    now - e.timestamp > ttl
  }

  /** The keys `_clean_expired` collects, in the order of the cache. */
  function ExpiredKeys(c: Cache, now: real, ttl: real): (r: seq<string>)
    decreases |c|
  {
    if |c| == 0 then []
    else ExpiredKeys(c[..|c| - 1], now, ttl) + (if Expired(c[|c| - 1].1, now, ttl) then [c[|c| - 1].0] else [])
  }

  /** `del d[k]` on a cache: the entries whose key is not k. */
  function Delete(c: Cache, k: string): (r: Cache)
    decreases |c|
  {
    if |c| == 0 then []
    else Delete(c[..|c| - 1], k) + (if c[|c| - 1].0 == k then [] else [c[|c| - 1]])
  }

  /** Deleting the keys ks one after the other. */
  function DeleteAll(c: Cache, ks: seq<string>): (r: Cache)
    decreases |ks|
  {
    if |ks| == 0 then c else Delete(DeleteAll(c, ks[..|ks| - 1]), ks[|ks| - 1])
  }

  /** The entries whose key is not in ks. */
  function KeepOut(c: Cache, ks: seq<string>): (r: Cache)
    decreases |c|
  {
    if |c| == 0 then []
    else KeepOut(c[..|c| - 1], ks) + (if c[|c| - 1].0 in ks then [] else [c[|c| - 1]])
  }

  /** The reference meaning of cleaning: the entries that have not expired. */
  function Unexpired(c: Cache, now: real, ttl: real): (r: Cache)
    decreases |c|
  {
    if |c| == 0 then []
    else Unexpired(c[..|c| - 1], now, ttl) + (if Expired(c[|c| - 1].1, now, ttl) then [] else [c[|c| - 1]])
  }

  /** `cache.get`: the data of an entry younger than ttl, or nothing. */
  function Lookup(c: Cache, key: string, now: real, ttl: real): (r: Option<Value>)
    ensures r.Some? <==> HasKey(c, key) && now - GetOr(c, key, Entry(Null, 0.0)).timestamp < ttl
    ensures r.Some? ==> (key, Entry(r.value, GetOr(c, key, Entry(Null, 0.0)).timestamp)) in c
  {
    match Get(c, key)
    case Some(e) => if now - e.timestamp < ttl then Some(e.data) else None
    case None => None
  }

  /** `cache.set`: the entry is stored, and the cache is cleaned once it holds more than 100 entries. */
  function Stored(c: Cache, key: string, data: Value, now: real, ttl: real): (r: Cache)
  {
    var c1 := Put(c, key, Entry(data, now));
    if |c1| > 100 then Unexpired(c1, now, ttl) else c1
  }

  lemma LastOfAppend<T>(p: seq<T>, x: T)
    ensures (p + [x])[..|p|] == p && (p + [x])[|p|] == x
  {
  }

  /** Reading a key of `p + [e]`: the earlier entry if there is one, else the new one. */
  lemma GetSnoc(p: Cache, e: (string, Entry), k: string)
    ensures Get(p + [e], k) == if HasKey(p, k) then Get(p, k) else if e.0 == k then Some(e.1) else None
    ensures HasKey(p + [e], k) <==> HasKey(p, k) || e.0 == k
  {
    GetConcat(p, [e], k);
    HasKeyConcat(p, [e], k);
    HasKeySingle([e], k);
  }

  /** A key that is not in the cache is not in any part of it. */
  lemma KeysPrefix(c: Cache, k: string)
    requires |c| > 0
    ensures HasKey(c[..|c| - 1], k) ==> HasKey(c, k)
  {
    if HasKey(c[..|c| - 1], k) {
      var i :| 0 <= i < |c| - 1 && c[..|c| - 1][i].0 == k;
      assert c[i].0 == k;
    }
  }

  /** Distinct keys stay distinct in the front part. */
  lemma UniquePrefix(c: Cache)
    requires |c| > 0 && Unique(Keys(c))
    ensures Unique(Keys(c[..|c| - 1]))
    ensures !HasKey(c[..|c| - 1], c[|c| - 1].0)
  {
    var p := c[..|c| - 1];
    forall i, j | 0 <= i < j < |p| ensures Keys(p)[i] != Keys(p)[j] {
      assert Keys(c)[i] != Keys(c)[j];
    }
    forall i | 0 <= i < |p| ensures p[i].0 != c[|c| - 1].0 {
      assert Keys(c)[i] != Keys(c)[|c| - 1];
    }
  }

  /** Deleting one more key is keeping out one more key. */
  lemma {:induction false} DeleteKeepOut(c: Cache, ks: seq<string>, k: string)
    ensures Delete(KeepOut(c, ks), k) == KeepOut(c, ks + [k])
    decreases |c|
  {
    if |c| > 0 {
      var p := c[..|c| - 1];
      var e := c[|c| - 1];
      DeleteKeepOut(p, ks, k);
      if e.0 in ks {
        assert KeepOut(c, ks) == KeepOut(p, ks);
      } else {
        LastOfAppend(KeepOut(p, ks), e);
        assert Delete(KeepOut(c, ks), k) == Delete(KeepOut(p, ks), k) + (if e.0 == k then [] else [e]);
      }
    }
  }

  /** The deletion loop keeps out exactly the keys it deletes. */
  lemma {:induction false} DeleteAllKeepOut(c: Cache, ks: seq<string>)
    ensures DeleteAll(c, ks) == KeepOut(c, ks)
    decreases |ks|
  {
    if |ks| == 0 {
      KeepOutNone(c, ks);
    } else {
      var front := ks[..|ks| - 1];
      DeleteAllKeepOut(c, front);
      DeleteKeepOut(c, front, ks[|ks| - 1]);
      assert front + [ks[|ks| - 1]] == ks;
    }
  }

  lemma {:induction false} KeepOutNone(c: Cache, ks: seq<string>)
    requires |ks| == 0
    ensures KeepOut(c, ks) == c
    decreases |c|
  {
    if |c| > 0 {
      KeepOutNone(c[..|c| - 1], ks);
      assert c[..|c| - 1] + [c[|c| - 1]] == c;
    }
  }

  /** Keeping out two key lists that agree on the keys of the cache gives the same cache. */
  lemma {:induction false} KeepOutAgree(c: Cache, ks1: seq<string>, ks2: seq<string>)
    requires forall i :: 0 <= i < |c| ==> (c[i].0 in ks1 <==> c[i].0 in ks2)
    ensures KeepOut(c, ks1) == KeepOut(c, ks2)
    decreases |c|
  {
    if |c| > 0 {
      KeepOutAgree(c[..|c| - 1], ks1, ks2);
    }
  }

  /** Every collected key belongs to an expired entry of the cache. */
  lemma {:induction false} ExpiredKeysFrom(c: Cache, now: real, ttl: real, k: string)
    requires k in ExpiredKeys(c, now, ttl)
    ensures exists i :: 0 <= i < |c| && c[i].0 == k && Expired(c[i].1, now, ttl)
    decreases |c|
  {
    var p := c[..|c| - 1];
    if k in ExpiredKeys(p, now, ttl) {
      ExpiredKeysFrom(p, now, ttl, k);
      var i :| 0 <= i < |p| && p[i].0 == k && Expired(p[i].1, now, ttl);
      assert c[i] == p[i];
    } else {
      assert c[|c| - 1].0 == k && Expired(c[|c| - 1].1, now, ttl);
    }
  }

  /** With distinct keys, keeping out the expired keys keeps exactly the unexpired entries. */
  lemma {:induction false} KeepOutExpired(c: Cache, now: real, ttl: real)
    requires Unique(Keys(c))
    ensures KeepOut(c, ExpiredKeys(c, now, ttl)) == Unexpired(c, now, ttl)
    decreases |c|
  {
    if |c| > 0 {
      var p := c[..|c| - 1];
      var e := c[|c| - 1];
      UniquePrefix(c);
      KeepOutExpired(p, now, ttl);
      var ks := ExpiredKeys(c, now, ttl);
      var kp := ExpiredKeys(p, now, ttl);
      forall i | 0 <= i < |p| ensures (p[i].0 in ks <==> p[i].0 in kp) {
        assert p[i].0 != e.0 by {
          assert HasKey(p, p[i].0);
        }
      }
      KeepOutAgree(p, ks, kp);
      assert e.0 in ks <==> Expired(e.1, now, ttl) by {
        if e.0 in kp {
          ExpiredKeysFrom(p, now, ttl, e.0);
        }
      }
    }
  }

  /** Every entry left by cleaning is an unexpired entry of the cache, and every unexpired entry is left. */
  lemma {:induction false} UnexpiredMembers(c: Cache, now: real, ttl: real, x: (string, Entry))
    ensures x in Unexpired(c, now, ttl) <==> x in c && !Expired(x.1, now, ttl)
    decreases |c|
  {
    if |c| > 0 {
      var p := c[..|c| - 1];
      UnexpiredMembers(p, now, ttl, x);
      LastSplit(c);
    }
  }

  /** Cleaning keeps the keys of the cache distinct. */
  lemma {:induction false} UnexpiredUnique(c: Cache, now: real, ttl: real)
    requires Unique(Keys(c))
    ensures Unique(Keys(Unexpired(c, now, ttl)))
    decreases |c|
  {
    if |c| > 0 {
      var p := c[..|c| - 1];
      var e := c[|c| - 1];
      UniquePrefix(c);
      UnexpiredUnique(p, now, ttl);
      var u := Unexpired(p, now, ttl);
      if !Expired(e.1, now, ttl) {
        forall i | 0 <= i < |u| ensures u[i].0 != e.0 {
          UnexpiredMembers(p, now, ttl, u[i]);
          var j :| 0 <= j < |p| && p[j] == u[i];
          assert HasKey(p, p[j].0);
        }
        var r := u + [e];
        forall i, j | 0 <= i < j < |r| ensures Keys(r)[i] != Keys(r)[j] {
          if j < |u| {
            assert Keys(u)[i] != Keys(u)[j];
          }
        }
      }
    }
  }

  /** With distinct keys, the entry with key k after cleaning is that of the cache if it has not expired. */
  lemma {:induction false} UnexpiredGet(c: Cache, now: real, ttl: real, k: string)
    requires Unique(Keys(c))
    ensures Get(Unexpired(c, now, ttl), k) == match Get(c, k)
      case Some(e) => if Expired(e, now, ttl) then None else Some(e)
      case None => None
    decreases |c|
  {
    if |c| > 0 {
      var p := c[..|c| - 1];
      var e := c[|c| - 1];
      UniquePrefix(c);
      UnexpiredGet(p, now, ttl, k);
      LastSplit(c);
      GetSnoc(p, e, k);
      var u := Unexpired(p, now, ttl);
      assert c[..|c| - 1] == p;
      assert HasKey(p, k) ==> e.0 != k;
      if Expired(e.1, now, ttl) {
        assert Unexpired(c, now, ttl) == u;
      } else {
        assert Unexpired(c, now, ttl) == u + [e];
        GetSnoc(u, e, k);
      }
    }
  }

  /** `NewsCache`: the entries by key, the time to live in seconds, and the lookup counts. */
  class NewsCache {
    var entries: Cache
    var ttl: real
    var hits: nat
    var misses: nat

    /** Every key names one entry, as in a Python dictionary. */
    ghost predicate Valid()
      reads this
    {
      Unique(Keys(entries))
    }

    /** `NewsCache(ttl_seconds)`: empty, no lookups yet. */
    constructor (ttlSeconds: real)
      ensures Valid()
      ensures entries == [] && ttl == ttlSeconds && hits == 0 && misses == 0
    {
      entries := [];
      ttl := ttlSeconds;
      hits := 0;
      misses := 0;
    }

    /** `get`: the lookup of `Lookup`, counted as one hit or one miss. */
    method Get(ticker: string, limit: int, daysBack: int, hour: string, now: real) returns (r: Option<Value>)
      requires Valid()
      modifies this
      ensures Valid()
      ensures entries == old(entries) && ttl == old(ttl)
      ensures r == Lookup(entries, CacheKey(ticker, limit, daysBack, hour), now, ttl)
      ensures r.Some? ==> hits == old(hits) + 1 && misses == old(misses)
      ensures r.None? ==> hits == old(hits) && misses == old(misses) + 1
    {
      var key := CacheKey(ticker, limit, daysBack, hour);
      var entry := Common.Get(entries, key);
      if entry.Some? {
        if now - entry.value.timestamp < ttl {
          hits := hits + 1;
          return Some(entry.value.data);
        }
      }
      misses := misses + 1;
      return None;
    }

    /** `set`: store the data with the time, then clean when more than 100 entries are held. */
    method Set(ticker: string, limit: int, daysBack: int, hour: string, data: Value, now: real)
      requires Valid()
      modifies this
      ensures Valid()
      ensures ttl == old(ttl) && hits == old(hits) && misses == old(misses)
      ensures entries == Stored(old(entries), CacheKey(ticker, limit, daysBack, hour), data, now, ttl)
    {
      var key := CacheKey(ticker, limit, daysBack, hour);
      PutUnique(entries, key, Entry(data, now));
      entries := Put(entries, key, Entry(data, now));
      if |entries| > 100 {
        CleanExpired(now);
      }
    }

    /** `_clean_expired`: collect the expired keys, then delete them one by one. */
    method CleanExpired(now: real)
      requires Valid()
      modifies this
      ensures Valid()
      ensures ttl == old(ttl) && hits == old(hits) && misses == old(misses)
      ensures entries == Unexpired(old(entries), now, ttl)
    {
      var expired: seq<string> := [];
      var i := 0;
      while i < |entries|
        invariant 0 <= i <= |entries|
        invariant expired == ExpiredKeys(entries[..i], now, ttl)
        invariant entries == old(entries) && ttl == old(ttl) && hits == old(hits) && misses == old(misses)
      {
        assert entries[..i + 1][..i] == entries[..i];
        if now - entries[i].1.timestamp > ttl {
          expired := expired + [entries[i].0];
        }
        i := i + 1;
      }
      assert entries[..i] == entries;
      ghost var start := entries;
      var j := 0;
      while j < |expired|
        invariant 0 <= j <= |expired|
        invariant entries == DeleteAll(start, expired[..j])
        invariant ttl == old(ttl) && hits == old(hits) && misses == old(misses)
      {
        assert expired[..j + 1][..j] == expired[..j];
        entries := Delete(entries, expired[j]);
        j := j + 1;
      }
      assert expired[..j] == expired;
      DeleteAllKeepOut(start, expired);
      KeepOutExpired(start, now, ttl);
      UnexpiredUnique(start, now, ttl);
    }

    /** The hit rate of `get_stats`, before it is formatted as a percentage. */
    function HitRate(): (r: real)
      reads this
      ensures 0.0 <= r <= 1.0
      ensures hits + misses == 0 ==> r == 0.0
      ensures hits + misses > 0 ==> r * (hits + misses) as real == hits as real
    {
      if hits + misses > 0 then hits as real / (hits + misses) as real else 0.0
    }
  }

  /** Data stored under a key is read back under that key while younger than ttl. */
  lemma SetThenGet(c: Cache, key: string, data: Value, now: real, later: real, ttl: real)
    requires Unique(Keys(c))
    requires ttl >= 0.0 && later - now < ttl
    ensures Lookup(Stored(c, key, data, now, ttl), key, later, ttl) == Some(data)
  {
    var c1 := Put(c, key, Entry(data, now));
    PutUnique(c, key, Entry(data, now));
    if |c1| > 100 {
      UnexpiredGet(c1, now, ttl, key);
    }
  }

  /**
   * Storing one key changes no later lookup of another: cleaning removes
   * only entries that a lookup at that time or later would refuse anyway.
   */
  lemma SetKeepsOthers(c: Cache, key: string, data: Value, now: real, later: real, ttl: real, other: string)
    requires Unique(Keys(c))
    requires other != key && later >= now
    ensures Lookup(Stored(c, key, data, now, ttl), other, later, ttl) == Lookup(c, other, later, ttl)
  {
    var c1 := Put(c, key, Entry(data, now));
    PutUnique(c, key, Entry(data, now));
    PutGet(c, key, Entry(data, now), other);
    if |c1| > 100 {
      UnexpiredGet(c1, now, ttl, other);
    }
  }

  /** Cleaning runs only past 100 entries; below that, storing is a plain `d[k] = v`. */
  lemma SmallCacheNotCleaned(c: Cache, key: string, data: Value, now: real, ttl: real)
    requires |Put(c, key, Entry(data, now))| <= 100
    ensures Stored(c, key, data, now, ttl) == Put(c, key, Entry(data, now))
  {
  }

  /** Cleaning leaves exactly the entries that have not expired. */
  lemma CleanupExact(c: Cache, now: real, ttl: real, x: (string, Entry))
    ensures x in Unexpired(c, now, ttl) <==> x in c && now - x.1.timestamp <= ttl
  {
    UnexpiredMembers(c, now, ttl, x);
  }

  // -------------------------------------------------------- fallback feed

  const Neutral := "Neutral"
  const NewsTitle := "title"
  const NewsSummary := "summary"
  const NewsLabel := "overall_sentiment_label"
  const NewsScore := "overall_sentiment_score"
  const NewsPublished := "time_published"

  /** One simulated article; `published` is the formatted time of publication. */
  function Article(title: string, summary: string, tag: string, score: real, published: string): (r: Value)
    ensures r.Dict?
  {
    Dict([(NewsTitle, Str(title)), (NewsSummary, Str(summary)), (NewsLabel, Str(tag)),
          (NewsScore, Num(score)), (NewsPublished, Str(published))])
  }

  /** The simulated articles for a ticker; `hourAgo` and `twoHoursAgo` are the formatted times one and two hours back. */
  function BaseNews(ticker: string, hourAgo: string, twoHoursAgo: string): (r: seq<Value>)
    ensures 1 <= |r| <= 2
    ensures |r| == 2 <==> ticker == "EUR/USD" || ticker == "USD/JPY"
    ensures r[0] == Article((if |ticker| > 0 then ticker else "Forex") + " Market Shows Mixed Signals",
                            "Technical indicators suggest consolidation phase", Neutral, 0.1, hourAgo)
  {
    var first := Article((if |ticker| > 0 then ticker else "Forex") + " Market Shows Mixed Signals",
                         "Technical indicators suggest consolidation phase", Neutral, 0.1, hourAgo);
    var more :=
      if ticker == "EUR/USD" then
        [Article("EUR/USD Technical Analysis: Testing Key Support", "Euro consolidates near support zone",
                 Neutral, 0.0, twoHoursAgo)]
      else if ticker == "USD/JPY" then
        [Article("USD/JPY Approaches Key Resistance", "Yen watches Bank of Japan policy signals",
                 "Bullish", 0.6, hourAgo)]
      else [];
    [first] + more
  }

  /** Python's `s[:k]`: a negative k counts from the end. */
  function Prefix<T>(s: seq<T>, k: int): (r: seq<T>)
    ensures k >= 0 ==> |r| == if k < |s| then k else |s|
    ensures k < 0 ==> |r| == if -k < |s| then |s| + k else 0
    ensures r == s[..|r|]
  {
    if k >= 0 then Take(s, k) else if -k < |s| then s[..|s| + k] else []
  }

  const FeedKey := "feed"
  const ItemsKey := "items"

  /** `get_fallback_news_data`: the first `limit` simulated articles and their count. */
  function FallbackNews(ticker: string, limit: int, hourAgo: string, twoHoursAgo: string): (r: Value)
    ensures r.Dict? && |r.entries| == 4
    ensures r.entries[0] == (FeedKey, List(Prefix(BaseNews(ticker, hourAgo, twoHoursAgo), limit)))
  {
    var feed := Prefix(BaseNews(ticker, hourAgo, twoHoursAgo), limit);
    Dict([(FeedKey, List(feed)), ("information", Str("Fallback data - API unavailable")),
          (ItemsKey, Str(NatToString(|feed|))), ("data_source", Str("fallback_simulated"))])
  }

  /** The fallback feed holds at most `limit` articles when `limit` is not negative, and "items" is its length. */
  lemma FallbackFeedBounded(ticker: string, limit: int, hourAgo: string, twoHoursAgo: string)
    ensures var r := FallbackNews(ticker, limit, hourAgo, twoHoursAgo);
      var feed := r.entries[0].1.items;
      (limit >= 0 ==> |feed| <= limit)
      && r.entries[2] == (ItemsKey, Str(NatToString(|feed|)))
      && feed == BaseNews(ticker, hourAgo, twoHoursAgo)[..|feed|]
      && (limit > 0 ==> |feed| >= 1)
  {
  }

  // ----------------------------------------------------- node's pass over the feed

  /**
   * One processed article: the title cut to 60 characters (or, for a title
   * that is a list, to 60 elements), the lower-cased label and the score.
   */
  datatype NewsItem = NewsItem(title: Value, sentiment: string, score: Value)

  /** A value `v[:n]` can slice: text or a list. */
  predicate Sliceable(v: Value)
  {
    v.Str? || v.List?
  }

  /** `v[:n]` of text or a list. */
  function Cut(v: Value, n: nat): (r: Value)
    requires Sliceable(v)
    ensures Sliceable(r)
    ensures v.Str? ==> r.Str? && r.s == v.s[..if |v.s| < n then |v.s| else n]
    ensures v.List? ==> r.List? && r.items == v.items[..if |v.items| < n then |v.items| else n]
  {
    if v.Str? then Str(Take(v.s, n)) else List(Take(v.items, n))
  }

  /** The three counted labels. */
  datatype Sentiments = Sentiments(bullish: nat, bearish: nat, neutral: nat)
  {
    function Total(): nat { bullish + bearish + neutral }
  }

  /** Counting one label; a label other than the three counted ones changes nothing. */
  function Tally(s: Sentiments, tag: string): (r: Sentiments)
    ensures r.Total() == s.Total() + (if tag in {"bullish", "bearish", "neutral"} then 1 else 0)
  {
    if tag == "bullish" then s.(bullish := s.bullish + 1)
    else if tag == "bearish" then s.(bearish := s.bearish + 1)
    else if tag == "neutral" then s.(neutral := s.neutral + 1)
    else s
  }

  /** `item.get(name, default)` of one feed entry, or the error the node catches. */
  function Field(item: Value, name: string, default: Value): (r: Result<Value>)
    ensures r.Err? <==> !item.Dict?
  {
    if item.Dict? then Ok(GetOr(item.entries, name, default))
    else Err("'" + AlphaVantageCommon.TypeName(item) + "' object has no attribute 'get'")
  }

  /** The entries the node's loop raises on: not a dictionary, a label that is not text, or a title that cannot be sliced. */
  predicate Refused(item: Value)
  {
    !item.Dict? || !GetOr(item.entries, NewsLabel, Str("neutral")).Str? || !Sliceable(GetOr(item.entries, NewsTitle, Str("")))
  }

  /**
   * The processed form of one feed entry: the label defaults to "neutral"
   * and must be text to be lower-cased, the title defaults to "" and is
   * cut when it is text or a list; slicing a dictionary or a scalar raises.
   */
  function ItemOf(item: Value): (r: Result<NewsItem>)
    ensures r.Err? <==> Refused(item)
    ensures r.Ok? ==> r.value.title == Cut(GetOr(item.entries, NewsTitle, Str("")), 60)
    ensures r.Ok? ==> (r.value.title.Str? ==> |r.value.title.s| <= 60) && (r.value.title.List? ==> |r.value.title.items| <= 60)
    ensures r.Ok? ==> r.value.sentiment == Lower(GetOr(item.entries, NewsLabel, Str("neutral")).s)
  {
    match Field(item, NewsLabel, Str("neutral"))
    case Err(e) => Err(e)
    case Ok(tag) =>
      if !tag.Str? then Err("'" + AlphaVantageCommon.TypeName(tag) + "' object has no attribute 'lower'")
      else
        var title := GetOr(item.entries, NewsTitle, Str(""));
        if title.Dict? then Err("unhashable type: 'slice'")
        else if !Sliceable(title) then Err("'" + AlphaVantageCommon.TypeName(title) + "' object is not subscriptable")
        else Ok(NewsItem(Cut(title, 60), Lower(tag.s), GetOr(item.entries, NewsScore, Int(0))))
  }

  /** How many processed items carry the label. */
  function CountLabel(items: seq<NewsItem>, tag: string): (r: nat)
    ensures r <= |items|
    decreases |items|
  {
    if |items| == 0 then 0
    else CountLabel(items[..|items| - 1], tag) + (if items[|items| - 1].sentiment == tag then 1 else 0)
  }

  /** The initial counts. */
  const NoSentiments := Sentiments(0, 0, 0)

  /**
   * The loop of the node over the entries it processes: the items in order
   * and the label counts, or the error of the first entry that raises.
   */
  function Aggregate(feed: seq<Value>): (r: Result<(seq<NewsItem>, Sentiments)>)
    ensures r.Ok? ==> |r.value.0| == |feed| && r.value.1.Total() <= |feed|
    decreases |feed|
  {
    if |feed| == 0 then Ok(([], NoSentiments))
    else
      match Aggregate(feed[..|feed| - 1])
      case Err(e) => Err(e)
      case Ok(acc) =>
        match ItemOf(feed[|feed| - 1])
        case Err(e) => Err(e)
        case Ok(item) => Ok((acc.0 + [item], Tally(acc.1, item.sentiment)))
  }

  /** The counts are the numbers of processed items carrying each label. */
  lemma {:induction false} AggregateCounts(feed: seq<Value>)
    ensures var r := Aggregate(feed);
      r.Ok? ==> r.value.1 == Sentiments(CountLabel(r.value.0, "bullish"), CountLabel(r.value.0, "bearish"),
                                        CountLabel(r.value.0, "neutral"))
    decreases |feed|
  {
    if |feed| > 0 {
      var front := feed[..|feed| - 1];
      AggregateCounts(front);
      var r := Aggregate(feed);
      if r.Ok? {
        var acc := Aggregate(front).value;
        var item := ItemOf(feed[|feed| - 1]).value;
        LastOfAppend(acc.0, item);
      }
    }
  }

  /** The pass fails exactly when one of the processed entries raises. */
  lemma {:induction false} AggregateFails(feed: seq<Value>)
    ensures Aggregate(feed).Err? <==> exists i :: 0 <= i < |feed| && Refused(feed[i])
    decreases |feed|
  {
    if |feed| > 0 {
      var front := feed[..|feed| - 1];
      AggregateFails(front);
      AggregateLast(feed);
      RefusedLast(feed);
    }
  }

  /** Some entry of the feed raises. */
  ghost predicate AnyRefused(feed: seq<Value>)
  {
    exists i :: 0 <= i < |feed| && Refused(feed[i])
  }

  /** Some entry of a non-empty feed raises when one of its front does or its last one does. */
  lemma RefusedLast(feed: seq<Value>)
    requires |feed| > 0
    ensures AnyRefused(feed) <==> AnyRefused(feed[..|feed| - 1]) || Refused(feed[|feed| - 1])
  {
    var front := feed[..|feed| - 1];
    if exists i :: 0 <= i < |feed| && Refused(feed[i]) {
      var i :| 0 <= i < |feed| && Refused(feed[i]);
      if i < |front| {
        assert Refused(front[i]);
      }
    }
    if exists i :: 0 <= i < |front| && Refused(front[i]) {
      var i :| 0 <= i < |front| && Refused(front[i]);
      assert Refused(feed[i]);
    }
  }

  /** The pass over a non-empty feed fails when the pass over its front fails or its last entry raises. */
  lemma AggregateLast(feed: seq<Value>)
    requires |feed| > 0
    ensures Aggregate(feed).Err? <==> Aggregate(feed[..|feed| - 1]).Err? || Refused(feed[|feed| - 1])
  {
  }

  /** How many entries the node looks at: 5 in fast mode, 8 otherwise. */
  function MaxItems(fastMode: bool): (r: nat)
  {
    if fastMode then 5 else 8
  }

  /** The entries the node processes: the first ones of a list under "feed", or none. */
  function Processed(newsData: Value, fastMode: bool): (r: Result<(seq<NewsItem>, Sentiments)>)
    ensures r.Ok? ==> |r.value.0| <= MaxItems(fastMode) && r.value.1.Total() <= |r.value.0|
    ensures !(newsData.Dict? && HasKey(newsData.entries, FeedKey)) ==> r == Ok(([], NoSentiments))
  {
    if newsData.Dict? && HasKey(newsData.entries, FeedKey) then
      var feed := GetOr(newsData.entries, FeedKey, Null);
      if feed.List? then Aggregate(Take(feed.items, MaxItems(fastMode))) else Ok(([], NoSentiments))
    else Ok(([], NoSentiments))
  }

  /** The node's loop over `feed[:max_items]`. */
  method ProcessFeed(newsData: Value, fastMode: bool) returns (r: Result<(seq<NewsItem>, Sentiments)>)
    ensures r == Processed(newsData, fastMode)
  {
    if !newsData.Dict? || !HasKey(newsData.entries, FeedKey) {
      return Ok(([], NoSentiments));
    }
    var feed := GetOr(newsData.entries, FeedKey, Null);
    if !feed.List? {
      return Ok(([], NoSentiments));
    }
    r := AggregateLoop(Take(feed.items, MaxItems(fastMode)));
  }

  /** The loop itself: the entries processed in order, stopping at the first that raises. */
  method AggregateLoop(entries: seq<Value>) returns (r: Result<(seq<NewsItem>, Sentiments)>)
    ensures r == Aggregate(entries)
  {
    var items: seq<NewsItem> := [];
    var stats := NoSentiments;
    var i := 0;
    while i < |entries|
      invariant 0 <= i <= |entries|
      invariant Aggregate(entries[..i]) == Ok((items, stats))
    {
      var next := ProcessEntry(entries, i, items, stats);
      if next.Err? {
        AggregateErrStays(entries, i + 1);
        return next;
      }
      items, stats := next.value.0, next.value.1;
      i := i + 1;
    }
    WholePrefix(entries);
    r := Ok((items, stats));
  }

  /** One pass of the node's loop: the entry raises, or its item is appended and its label counted. */
  method ProcessEntry(entries: seq<Value>, i: nat, items: seq<NewsItem>, stats: Sentiments)
    returns (next: Result<(seq<NewsItem>, Sentiments)>)
    requires i < |entries| && Aggregate(entries[..i]) == Ok((items, stats))
    ensures next == Aggregate(entries[..i + 1])
  {
    assert entries[..i + 1][..i] == entries[..i];
    var item := ItemOf(entries[i]);
    if item.Err? {
      next := Err(item.msg);
    } else {
      next := Ok((items + [item.value], Tally(stats, item.value.sentiment)));
    }
  }

  /** Once an entry raises, the loop's result is that error whatever follows. */
  lemma {:induction false} AggregateErrStays(feed: seq<Value>, n: nat)
    requires n <= |feed| && Aggregate(feed[..n]).Err?
    ensures Aggregate(feed) == Aggregate(feed[..n])
    decreases |feed| - n
  {
    if n < |feed| {
      assert feed[..n + 1][..n] == feed[..n];
      AggregateErrStays(feed, n + 1);
    } else {
      assert feed[..n] == feed;
    }
  }

  /** The node counts at most 5 entries in fast mode and at most 8 otherwise, and the counts never exceed the items. */
  lemma NodeBounds(newsData: Value, fastMode: bool)
    ensures var r := Processed(newsData, fastMode);
      r.Ok? ==> |r.value.0| <= (if fastMode then 5 else 8)
                && r.value.1.bullish + r.value.1.bearish + r.value.1.neutral <= |r.value.0|
  {
  }

  // --------------------------------------------------- analysis without the model

  function PairName(pair: string): (r: string)
    ensures |pair| > 0 ==> r == pair
  {
    if |pair| > 0 then pair else "外汇"
  }

  /** The market verdict and advice of `generate_fallback_analysis`. */
  function Verdict(s: Sentiments): (r: (string, string))
    ensures r.0 == "数据不足" <==> s.Total() == 0
    ensures r.0 == "偏多" <==> s.Total() > 0 && s.bullish > s.bearish && s.bullish > s.neutral
    ensures r.0 == "偏空" <==> s.Total() > 0 && !(s.bullish > s.bearish && s.bullish > s.neutral)
                                && s.bearish > s.bullish && s.bearish > s.neutral
    ensures r.0 == "中性震荡" <==> s.Total() > 0 && !(s.bullish > s.bearish && s.bullish > s.neutral)
                                  && !(s.bearish > s.bullish && s.bearish > s.neutral)
  {
    if s.Total() == 0 then ("数据不足", "建议观望")
    else if s.bullish > s.bearish && s.bullish > s.neutral then ("偏多", "考虑逢低买入")
    else if s.bearish > s.bullish && s.bearish > s.neutral then ("偏空", "考虑逢高卖出")
    else ("中性震荡", "建议区间操作")
  }

  /** The answer when there is no news at all. */
  function NoNewsMessage(pair: string): (r: string)
  {
    "【" + PairName(pair) + "分析】\n暂无有效新闻数据，建议观望或关注技术面。"
  }

  /**
   * The closing line naming the first article's title, cut to 40, when the
   * cut title is not empty; a list title is shown by `show`, Python's `str`.
   */
  function KeyTitleLine(items: seq<NewsItem>, show: Value -> string): (r: string)
    requires |items| > 0
    ensures !Sliceable(items[0].title) ==> r == ""
    ensures Sliceable(items[0].title) ==> (Truthy(Cut(items[0].title, 40)) <==> r != "")
    ensures items[0].title.Str? && |items[0].title.s| > 0 ==>
      r == "\n📰 关键新闻：" + Take(items[0].title.s, 40) + "..."
  {
    if !Sliceable(items[0].title) then ""
    else
      var t := Cut(items[0].title, 40);
      if Truthy(t) then "\n📰 关键新闻：" + (if t.Str? then t.s else show(t)) + "..." else ""
  }

  /** `generate_fallback_analysis`; `timestamp` is the `%H:%M:%S` time of writing. */
  function FallbackAnalysis(items: seq<NewsItem>, s: Sentiments, pair: string, timestamp: string,
                            show: Value -> string): (r: string)
  {
    if |items| == 0 then NoNewsMessage(pair)
    else
      var v := Verdict(s);
      AnalysisHead(s, pair, timestamp) + v.0 + AnalysisTail(items, v.1, show)
  }

  /** The analysis after the verdict: the advice, the fixed hint and the key-news line. */
  function AnalysisTail(items: seq<NewsItem>, advice: string, show: Value -> string): string
    requires |items| > 0
  {
    "\n💡 操作建议：" + advice + "\n⚡ 提示：基于自动分析，请结合技术指标确认" + KeyTitleLine(items, show)
  }

  /** The analysis up to the verdict: the pair, the time, the counts and the sentiment heading. */
  function AnalysisHead(s: Sentiments, pair: string, timestamp: string): string
  {
    "【" + PairName(pair) + "快速分析】⏱️" + timestamp
    + "\n📊 数据统计：" + NatToString(s.Total()) + "条新闻（看涨" + NatToString(s.bullish)
    + "/看跌" + NatToString(s.bearish) + "/中性" + NatToString(s.neutral) + "）"
    + "\n📈 市场情绪："
  }

  /** No news gives the fixed message, whatever the counts. */
  lemma EmptyNewsMessage(s: Sentiments, pair: string, timestamp: string, show: Value -> string)
    ensures FallbackAnalysis([], s, pair, timestamp, show) == "【" + PairName(pair) + "分析】\n暂无有效新闻数据，建议观望或关注技术面。"
  {
  }

  /** With news, the analysis states the counts and then names the verdict of the counts as the market sentiment. */
  lemma AnalysisCarriesVerdict(items: seq<NewsItem>, s: Sentiments, pair: string, timestamp: string,
                                show: Value -> string)
    requires |items| > 0
    ensures var r := FallbackAnalysis(items, s, pair, timestamp, show);
      var head := AnalysisHead(s, pair, timestamp);
      r[..|head|] == head && r[|head|..|head| + |Verdict(s).0|] == Verdict(s).0
  {
    var v := Verdict(s);
    ConcatParts(AnalysisHead(s, pair, timestamp), v.0, AnalysisTail(items, v.1, show));
  }

  // ------------------------------------------------------------- the report

  /** What the call to the language model gave: a reply's content, a timeout or another error. */
  datatype LlmOutcome = Replied(content: string) | TimedOut | Failed(error: string)

  /**
   * The report: the fallback analysis when time is short, when the model
   * times out or fails, or when its reply is shorter than 30 characters
   * once stripped; otherwise the reply.
   */
  function Report(late: bool, outcome: LlmOutcome, items: seq<NewsItem>, s: Sentiments, pair: string,
                  timestamp: string, show: Value -> string): (r: string)
    ensures !late && outcome.Replied? && |Strip(outcome.content)| >= 30 ==> r == outcome.content
    ensures late || !outcome.Replied? || |Strip(outcome.content)| < 30 ==> r == FallbackAnalysis(items, s, pair, timestamp, show)
  {
    if late then FallbackAnalysis(items, s, pair, timestamp, show)
    else match outcome
      case Replied(content) =>
        if |Strip(content)| < 30 then FallbackAnalysis(items, s, pair, timestamp, show) else content
      case TimedOut => FallbackAnalysis(items, s, pair, timestamp, show)
      case Failed(_) => FallbackAnalysis(items, s, pair, timestamp, show)
  }

  /** A short reply is never the report: a stripped length under 30 always falls back. */
  lemma ShortReplyReplaced(content: string, items: seq<NewsItem>, s: Sentiments, pair: string, timestamp: string,
                           show: Value -> string)
    requires |Strip(content)| < 30
    ensures Report(false, Replied(content), items, s, pair, timestamp, show) == FallbackAnalysis(items, s, pair, timestamp, show)
  {
  }

  /** What the node returns: a report with its counts, the timeout notice, or the error notice. */
  datatype NodeOutput =
    | Analysed(report: string, newsCount: nat, stats: Sentiments)
    | TimeoutNotice(report: string)
    | Failure(message: string, report: string, error: string)

  /** The notice of the data-fetch deadline. */
  function TimeoutReport(pair: string): (r: string)
  {
    "【超时保护】" + PairName(pair) + "分析\n分析请求超时，启用快速响应模式。\n当前建议：关注技术面指标，谨慎操作。\n提示：下次可尝试简化查询条件。"
  }

  /** `news_analyst_node` on the fetched data, the two deadline checks and the model's outcome. */
  function Node(newsData: Value, fastMode: bool, fetchLate: bool, late: bool, outcome: LlmOutcome, pair: string,
                timestamp: string, show: Value -> string): (r: NodeOutput)
    ensures fetchLate ==> r == TimeoutNotice(TimeoutReport(pair))
    ensures r.Analysed? ==> r.newsCount <= MaxItems(fastMode) && r.stats.Total() <= r.newsCount
    ensures r.Failure? <==> !fetchLate && Processed(newsData, fastMode).Err?
  {
    if fetchLate then TimeoutNotice(TimeoutReport(pair))
    else match Processed(newsData, fastMode)
      case Err(e) => Failure("分析失败: " + Take(e, 50), "分析异常: " + Take(e, 100), e)
      case Ok(p) => Analysed(Report(late, outcome, p.0, p.1, pair, timestamp, show), |p.0|, p.1)
  }
}
