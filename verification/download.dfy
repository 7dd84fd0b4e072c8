/**
  The market-data download and the per-run download cache of fetch_data.py.
  The data feed itself (yfinance over the network, with a date window taken
  from the clock) is a function supplied from outside; this module records
  each call made to it.
*/
module Download {
  import opened Common
  import opened Strings
  import opened Engine

  /** The external feed: what the `k`-th download of `tickers` over `days` days returns. */
  type Feed = (nat, seq<string>, int) -> Dataset

  /** The download service, with a log of every request sent to it. */
  class MarketDataSource {
    const feed: Feed
    var calls: seq<(seq<string>, int)>

    constructor (feed: Feed)
      ensures this.feed == feed && calls == []
    {
      this.feed := feed;
      calls := [];
    }

    /** One `yf.download(tickers, ...)` request. */
    method Fetch(tickers: seq<string>, days: int) returns (df: Dataset)
      modifies this
      ensures calls == old(calls) + [(tickers, days)]
      ensures df == feed(|old(calls)|, tickers, days)
    {
      df := feed(|calls|, tickers, days);
      calls := calls + [(tickers, days)];
    }
  }

  /** The cache key `(tuple(sorted(set(tickers))), period_days)`. */
  function CacheKey(tickers: seq<string>, days: int): (key: (seq<string>, int))
    ensures StrictlySorted(key.0) && key.1 == days
    ensures forall t :: t in key.0 <==> t in tickers
  {
    (SortedUnique(tickers), days)
  }

  /** Two requests for the same set of tickers share a key, whatever their order or repetitions. */
  lemma SameTickersSameKey(t1: seq<string>, t2: seq<string>, days: int)
    requires forall t :: t in t1 <==> t in t2
    ensures CacheKey(t1, days) == CacheKey(t2, days)
  {
    SortedUniqueCanonical(t1, t2);
  }

  /** `download_daily` of fetch_data.py with its module-level `_DOWNLOAD_CACHE`. */
  class DownloadCache {
    var entries: map<(seq<string>, int), Dataset>
    const source: MarketDataSource

    /** Every stored key is a non-empty, sorted, duplicate-free ticker list. */
    ghost predicate Valid()
      reads this
    {
      forall key :: key in entries ==> key.0 != [] && StrictlySorted(key.0)
    }

    constructor (source: MarketDataSource)
      ensures this.source == source && entries == map[] && Valid()
    {
      this.source := source;
      entries := map[];
    }

    /**
      An empty request is an error and changes nothing. A request whose key is
      stored returns the stored frame and sends nothing. Any other request is
      sent once, with the sorted duplicate-free tickers, and its frame stored.
    */
    method DownloadDaily(tickers: seq<string>, days: int) returns (r: Result<Dataset>)
      requires Valid()
      modifies this, source
      ensures Valid()
      ensures tickers == [] ==> r == Err(NoTickers) && entries == old(entries) && source.calls == old(source.calls)
      ensures tickers != [] && CacheKey(tickers, days) in old(entries) ==>
        r == Ok(old(entries)[CacheKey(tickers, days)])
        && entries == old(entries) && source.calls == old(source.calls)
      ensures tickers != [] && CacheKey(tickers, days) !in old(entries) ==>
        source.calls == old(source.calls) + [CacheKey(tickers, days)]
        && r == Ok(source.feed(|old(source.calls)|, CacheKey(tickers, days).0, days))
        && entries == old(entries)[CacheKey(tickers, days) := r.value]
      ensures r.Ok? ==> CacheKey(tickers, days) in entries && entries[CacheKey(tickers, days)] == r.value
    {
      var key := CacheKey(tickers, days);
      if key.0 == [] {
        return Err(NoTickers);
      }
      if key in entries {
        return Ok(entries[key]);
      }
      var df := source.Fetch(key.0, days);
      entries := entries[key := df];
      r := Ok(df);
    }
  }

  /**
    Asking twice for the same tickers, in any order, downloads at most once,
    and the second answer is the first.
  */
  method RepeatIsCached(cache: DownloadCache, t1: seq<string>, t2: seq<string>, days: int)
    returns (r1: Result<Dataset>, r2: Result<Dataset>)
    requires cache.Valid() && t1 != []
    requires forall t :: t in t1 <==> t in t2
    modifies cache, cache.source
    ensures cache.Valid()
    ensures r1.Ok? && r2 == r1
    ensures |cache.source.calls| <= |old(cache.source.calls)| + 1
  {
    r1 := cache.DownloadDaily(t1, days);
    SameTickersSameKey(t1, t2, days);
    assert t1[0] in t2;
    r2 := cache.DownloadDaily(t2, days);
  }
}
