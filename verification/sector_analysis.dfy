/**
  sector_analysis.py: the command-line copy of the engine, over every sector
  ETF, with an extra SMA10 column and a download without cache.
*/
module SectorAnalysis {
  import opened Common
  import opened Strings
  import opened Universe
  import opened Indicators
  import opened Sorting
  import opened Selection
  import opened Engine
  import opened Download
  import FetchData

  /** The SMA windows sector_analysis.py computes; SMA10 is never read back. */
  const Windows: set<nat> := {10, 20, 50, 200}

  /**
    The two copies of `compute_metrics_for_ticker` agree: they fail on the same
    histories, and otherwise give the same snapshot, although this one returns
    a bare None, the other `(None, None)`, and this frame also carries SMA10.
  */
  lemma CopiesAgree(rows: seq<RawRow>)
    ensures ComputeMetrics(rows, Windows).None? <==> FetchData.ComputeMetricsForTicker(rows).0.None?
    ensures ComputeMetrics(rows, Windows).Some? ==>
      ComputeMetrics(rows, Windows).value.0 == FetchData.ComputeMetricsForTicker(rows).0.value
    ensures ComputeMetrics(rows, Windows).Some? ==>
      forall i :: 0 <= i < |ComputeMetrics(rows, Windows).value.1| ==> 10 in ComputeMetrics(rows, Windows).value.1[i].sma
  {
    if DropNa(rows) != [] {
      SnapshotIgnoresExtraWindows(rows, Windows, FetchData.Windows);
      assert rows != [];
    }
  }

  /** Both copies compute the same metrics dict from the same download. */
  lemma MetricsAgree(tickers: seq<string>, df: Dataset)
    ensures MetricsOf(tickers, df, Windows) == MetricsOf(tickers, df, FetchData.Windows)
  {
    forall t | t in tickers
      ensures MetricsOf(tickers, df, Windows)[t] == MetricsOf(tickers, df, FetchData.Windows)[t]
    {
      SnapshotIgnoresExtraWindows(HistoryOf(df, t), Windows, FetchData.Windows);
    }
  }

  /**
    The table-building part of `main` over a download of `days` days, for a
    list of distinct ETFs: every ETF and leader, one request, the metrics of
    every symbol, one row per ETF ranked by score, and each ETF's candidate pick.
  */
  method RunOver(etfs: seq<string>, days: int, source: MarketDataSource)
    returns (table: seq<SectorRow>, components: map<string, seq<Candidate>>,
             ghost tickers: seq<string>, ghost df: Dataset, ghost metrics: Metrics,
             ghost rows: seq<SectorRow>, ghost best: seq<seq<Candidate>>)
    requires NoDuplicates(etfs) && forall e :: e in etfs ==> IsKnownEtf(e)
    modifies source
    ensures StrictlySorted(tickers) && forall t :: t in tickers <==> InUniverse(etfs, t)
    ensures source.calls == old(source.calls) + [(tickers, days)]
    ensures df == source.feed(|old(source.calls)|, tickers, days)
    ensures metrics == MetricsOf(tickers, df, Windows)
    ensures RowsFor(etfs, metrics, rows, best)
    ensures multiset(table) == multiset(rows) && SortedDesc(table, RowKey)
    ensures components.Keys == set e | e in etfs
    ensures forall i :: 0 <= i < |etfs| ==> components[etfs[i]] == best[i]
  {
    var all := CollectTickers(etfs);
    var frame := source.Fetch(all, days);
    var ranked, picks, snapshots, sectorRows := TableFromDownload(etfs, all, frame, Windows);
    components := IndexByEtf(etfs, picks);
    table := ranked;
    tickers, df, metrics, rows, best := all, frame, snapshots, sectorRows, picks;
  }

  /** `main`'s table over every sector ETF. */
  method RunDashboard(days: int, source: MarketDataSource)
    returns (table: seq<SectorRow>, components: map<string, seq<Candidate>>,
             ghost tickers: seq<string>, ghost df: Dataset, ghost metrics: Metrics,
             ghost rows: seq<SectorRow>, ghost best: seq<seq<Candidate>>)
    modifies source
    ensures StrictlySorted(tickers) && forall t :: t in tickers <==> InUniverse(Etfs, t)
    ensures source.calls == old(source.calls) + [(tickers, days)]
    ensures df == source.feed(|old(source.calls)|, tickers, days)
    ensures metrics == MetricsOf(tickers, df, Windows)
    ensures RowsFor(Etfs, metrics, rows, best)
    ensures multiset(table) == multiset(rows) && SortedDesc(table, RowKey)
    ensures components.Keys == set e | e in Etfs
    ensures forall i :: 0 <= i < |Etfs| ==> components[Etfs[i]] == best[i]
  {
    EtfTable();
    table, components, tickers, df, metrics, rows, best := RunOver(Etfs, days, source);
  }

  /** `main` downloads LOOKBACK_DAYS = 180 days. */
  method MainTable(source: MarketDataSource)
    returns (table: seq<SectorRow>, components: map<string, seq<Candidate>>)
    modifies source
    ensures |source.calls| == |old(source.calls)| + 1
    ensures source.calls[|source.calls| - 1].1 == AnalysisLookbackDays
    ensures components.Keys == set e | e in Etfs
    ensures |table| == |Etfs|
  {
    ghost var tickers, df, metrics, rows, best;
    table, components, tickers, df, metrics, rows, best := RunDashboard(AnalysisLookbackDays, source);
    RankingKeepsEveryEtf(Etfs, metrics, rows, best, table);
  }
}
