/**
  fetch_data.py: the engine as the agent graph runs it, over a selection of
  sector ETFs, with SMA windows 20/50/200 and downloads through the per-run
  cache.
*/
module FetchData {
  import opened Common
  import opened Strings
  import opened Universe
  import opened Indicators
  import opened Sorting
  import opened Selection
  import opened Engine
  import opened Download

  /** The SMA windows fetch_data.py computes. */
  const Windows: set<nat> := {20, 50, 200}

  /**
    `compute_metrics_for_ticker` of fetch_data.py: `(None, None)` when no row
    survives `dropna`, otherwise the snapshot of the last row and the frame.
  */
  function ComputeMetricsForTicker(rows: seq<RawRow>): (r: (Option<Snapshot>, Option<seq<Derived>>))
    ensures r.0.None? <==> DropNa(rows) == []
    ensures r.0.None? <==> r.1.None?
    ensures r.1.Some? ==> |r.1.value| == |DropNa(rows)| > 0
    ensures r.1.Some? ==> forall i :: 0 <= i < |r.1.value| ==> r.1.value[i].sma.Keys == Windows
    ensures r.0.Some? ==> r.0.value == ReadRow(r.1.value[|r.1.value| - 1])
    ensures r.0.Some? ==> r.0.value == LatestSnapshot(ToBars(DropNa(rows)), Windows)
    ensures r.1.Some? ==> r.1.value == Derive(ToBars(DropNa(rows)), Windows)
  {
    match ComputeMetrics(rows, Windows)
    case None => (None, None)
    case Some(p) => (Some(p.0), Some(p.1))
  }

  /** `[e for e in selected_etfs if e in SECTOR_ETFS]`. */
  function KnownOnly(selected: seq<string>): (etfs: seq<string>)
    ensures forall e :: e in etfs <==> e in selected && IsKnownEtf(e)
    ensures IsSubsequence(etfs, selected)
  {
    if selected == [] then []
    else if IsKnownEtf(selected[0]) then
      var rest := KnownOnly(selected[1..]);
      assert ([selected[0]] + rest)[1..] == rest;
      [selected[0]] + rest
    else KnownOnly(selected[1..])
  }

  /**
    Step 1 of build_sector_dashboard: a missing or empty selection means every
    ETF; otherwise the known ETFs of the selection, in its order and with its
    repetitions; a selection naming no known ETF is an error.
  */
  function ResolveUniverse(selected: Option<seq<string>>): (r: Result<seq<string>>)
    ensures r.Ok? ==> r.value != [] && forall e :: e in r.value ==> IsKnownEtf(e)
    ensures selected.None? || selected.value == [] ==> r == Ok(Etfs)
    ensures selected.Some? && selected.value != [] ==>
      (r.Err? <==> forall e :: e in selected.value ==> !IsKnownEtf(e))
    ensures selected.Some? && selected.value != [] && r.Ok? ==>
      r.value == KnownOnly(selected.value) && IsSubsequence(r.value, selected.value)
    ensures r.Err? ==> r.error == NoValidEtfs
  {
    EtfTable();
    var etfs := if selected.None? || selected.value == [] then Etfs else KnownOnly(selected.value);
    if etfs == [] then Err(NoValidEtfs)
    else
      assert etfs[0] in etfs;
      Ok(etfs)
  }

  /** Resolving an already resolved selection changes nothing. */
  lemma {:induction false} ResolveIdempotent(selected: Option<seq<string>>)
    requires ResolveUniverse(selected).Ok?
    ensures ResolveUniverse(Some(ResolveUniverse(selected).value)) == ResolveUniverse(selected)
  {
    var etfs := ResolveUniverse(selected).value;
    KnownOfKnown(etfs);
  }

  lemma {:induction false} KnownOfKnown(etfs: seq<string>)
    requires forall e :: e in etfs ==> IsKnownEtf(e)
    ensures KnownOnly(etfs) == etfs
  {
    if etfs != [] {
      KnownOfKnown(etfs[1..]);
    }
  }

  /** A strictly sorted list is its own `sorted(set(...))`. */
  lemma SortedUniqueOfSorted(xs: seq<string>)
    requires StrictlySorted(xs)
    ensures SortedUnique(xs) == xs
  {
    SortedListsWithSameElementsAreEqual(SortedUnique(xs), xs);
  }

  /**
    Steps 2 and 3 of build_sector_dashboard: the sorted ticker union of the
    ETFs, downloaded through the cache. A stored frame is reused without a
    request; otherwise one request is sent and its frame stored. No other
    cache entry changes.
  */
  method DownloadUniverse(etfs: seq<string>, cache: DownloadCache) returns (tickers: seq<string>, df: Dataset)
    requires cache.Valid()
    requires etfs != []
    modifies cache, cache.source
    ensures cache.Valid()
    ensures StrictlySorted(tickers) && forall t :: t in tickers <==> InUniverse(etfs, t)
    ensures CacheKey(tickers, FetchLookbackDays) == (tickers, FetchLookbackDays)
    ensures cache.entries == old(cache.entries)[(tickers, FetchLookbackDays) := df]
    ensures (tickers, FetchLookbackDays) in old(cache.entries) ==>
      df == old(cache.entries)[(tickers, FetchLookbackDays)] && cache.source.calls == old(cache.source.calls)
    ensures (tickers, FetchLookbackDays) !in old(cache.entries) ==>
      cache.source.calls == old(cache.source.calls) + [(tickers, FetchLookbackDays)]
      && df == cache.source.feed(|old(cache.source.calls)|, tickers, FetchLookbackDays)
  {
    tickers := CollectTickers(etfs);
    assert etfs[0] in etfs && InUniverse(etfs, etfs[0]);
    SortedUniqueOfSorted(tickers);
    var download := cache.DownloadDaily(tickers, FetchLookbackDays);
    df := download.value;
  }

  /**
    `build_sector_dashboard` after step 1, for a non-empty list of known ETFs:
    collect its tickers, download them through the cache, compute every
    snapshot, build one row per ETF and rank the rows by score.
  */
  method DashboardOver(etfs: seq<string>, cache: DownloadCache)
    returns (table: seq<SectorRow>, ghost tickers: seq<string>, ghost df: Dataset,
             ghost metrics: Metrics, ghost rows: seq<SectorRow>, ghost best: seq<seq<Candidate>>)
    requires cache.Valid()
    requires etfs != [] && forall e :: e in etfs ==> IsKnownEtf(e)
    modifies cache, cache.source
    ensures cache.Valid()
    ensures StrictlySorted(tickers) && forall t :: t in tickers <==> InUniverse(etfs, t)
    ensures CacheKey(tickers, FetchLookbackDays) == (tickers, FetchLookbackDays)
    ensures cache.entries == old(cache.entries)[(tickers, FetchLookbackDays) := df]
    ensures (tickers, FetchLookbackDays) in old(cache.entries) ==>
      df == old(cache.entries)[(tickers, FetchLookbackDays)] && cache.source.calls == old(cache.source.calls)
    ensures (tickers, FetchLookbackDays) !in old(cache.entries) ==>
      cache.source.calls == old(cache.source.calls) + [(tickers, FetchLookbackDays)]
      && df == cache.source.feed(|old(cache.source.calls)|, tickers, FetchLookbackDays)
    ensures metrics == MetricsOf(tickers, df, Windows)
    ensures RowsFor(etfs, metrics, rows, best)
    ensures multiset(table) == multiset(rows) && SortedDesc(table, RowKey)
  {
    var all, frame := DownloadUniverse(etfs, cache);
    var picks;
    ghost var snapshots, sectorRows;
    table, picks, snapshots, sectorRows := TableFromDownload(etfs, all, frame, Windows);
    tickers, df, metrics, rows, best := all, frame, snapshots, sectorRows, picks;
  }

  /**
    `build_sector_dashboard`: resolve the selection, then build the ranked
    table over it; a selection naming no known ETF is an error that neither
    downloads nor touches the cache. The ghost results name the intermediate
    values the table is built from.
  */
  method BuildSectorDashboard(selected: Option<seq<string>>, cache: DownloadCache)
    returns (r: Result<seq<SectorRow>>, ghost etfs: seq<string>, ghost tickers: seq<string>,
             ghost df: Dataset, ghost metrics: Metrics, ghost rows: seq<SectorRow>, ghost best: seq<seq<Candidate>>)
    requires cache.Valid()
    modifies cache, cache.source
    ensures cache.Valid()
    ensures r.Err? <==> ResolveUniverse(selected).Err?
    ensures r.Err? ==>
      r.error == NoValidEtfs && cache.entries == old(cache.entries) && cache.source.calls == old(cache.source.calls)
    ensures r.Ok? ==> etfs == ResolveUniverse(selected).value
    ensures r.Ok? ==> StrictlySorted(tickers) && forall t :: t in tickers <==> InUniverse(etfs, t)
    ensures r.Ok? ==>
      CacheKey(tickers, FetchLookbackDays) == (tickers, FetchLookbackDays)
      && cache.entries == old(cache.entries)[(tickers, FetchLookbackDays) := df]
    ensures r.Ok? && (tickers, FetchLookbackDays) in old(cache.entries) ==>
      df == old(cache.entries)[(tickers, FetchLookbackDays)] && cache.source.calls == old(cache.source.calls)
    ensures r.Ok? && (tickers, FetchLookbackDays) !in old(cache.entries) ==>
      cache.source.calls == old(cache.source.calls) + [(tickers, FetchLookbackDays)]
      && df == cache.source.feed(|old(cache.source.calls)|, tickers, FetchLookbackDays)
    ensures r.Ok? ==> metrics == MetricsOf(tickers, df, Windows)
    ensures r.Ok? ==> RowsFor(etfs, metrics, rows, best)
    ensures r.Ok? ==> multiset(r.value) == multiset(rows) && SortedDesc(r.value, RowKey)
  {
    var resolved := ResolveUniverse(selected);
    if resolved.Err? {
      return Err(NoValidEtfs), [], [], map[], map[], [], [];
    }
    var selection := resolved.value;
    var table;
    table, tickers, df, metrics, rows, best := DashboardOver(selection, cache);
    etfs := selection;
    r := Ok(table);
  }
}
