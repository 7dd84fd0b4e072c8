/**
  The dashboard pipeline that build_sector_dashboard (fetch_data.py), main
  (sector_analysis.py) and compute_sector_dashboard (app.py) each spell out:
  collect the ticker universe, split the download per symbol, compute each
  symbol's snapshot in isolation, build one row per sector ETF and rank the
  rows by score.
*/
module Engine {
  import opened Common
  import opened Strings
  import opened Universe
  import opened Indicators
  import opened Aggregation
  import opened Sorting
  import opened Selection

  /** The downloaded frame, one raw OHLCV history per symbol it returned. */
  type Dataset = map<string, seq<RawRow>>

  /** The `metrics` dict: a snapshot, or None, per symbol. */
  type Metrics = map<string, Option<Snapshot>>

  /** `metrics.get(t)`. */
  function Lookup(metrics: Metrics, t: string): Option<Snapshot>
  {
    if t in metrics then metrics[t] else None
  }

  // ---------------------------------------------------------------- universe

  /** `t` is one of the ETFs or one of their leaders. */
  predicate InUniverse(etfs: seq<string>, t: string)
  {
    exists e :: e in etfs && (t == e || t in LeadersOf(e))
  }

  /**
    The ticker loop: every ETF followed by its leaders, then
    `sorted(set(...))`: the sorted, duplicate-free union.
  */
  method CollectTickers(etfs: seq<string>) returns (tickers: seq<string>)
    ensures StrictlySorted(tickers)
    ensures NoDuplicates(tickers)
    ensures forall t :: t in tickers <==> InUniverse(etfs, t)
  {
    var all: seq<string> := [];
    for i := 0 to |etfs|
      invariant forall t :: t in all <==> InUniverse(etfs[..i], t)
    {
      assert etfs[..i + 1] == etfs[..i] + [etfs[i]];
      InUniverseSnoc(etfs[..i], etfs[i]);
      all := all + [etfs[i]] + LeadersOf(etfs[i]);
    }
    assert etfs[..|etfs|] == etfs;
    tickers := SortedUnique(all);
    StrictlySortedNoDuplicates(tickers);
  }

  lemma InUniverseSnoc(etfs: seq<string>, e: string)
    ensures forall t :: InUniverse(etfs + [e], t) <==> InUniverse(etfs, t) || t == e || t in LeadersOf(e)
  {
    forall t ensures InUniverse(etfs + [e], t) ==> InUniverse(etfs, t) || t == e || t in LeadersOf(e) {
      if InUniverse(etfs + [e], t) {
        var e' :| e' in etfs + [e] && (t == e' || t in LeadersOf(e'));
        if e' != e {
          assert e' in etfs;
        }
      }
    }
    forall t ensures InUniverse(etfs, t) || t == e || t in LeadersOf(e) ==> InUniverse(etfs + [e], t) {
      if InUniverse(etfs, t) {
        var e' :| e' in etfs && (t == e' || t in LeadersOf(e'));
        assert e' in etfs + [e];
      } else if t == e || t in LeadersOf(e) {
        assert e in etfs + [e];
      }
    }
  }

  // --------------------------------------------------------- per-symbol work

  /** `df[t].dropna()`, or an empty frame when the download holds no column for `t`. */
  function HistoryOf(df: Dataset, t: string): (rows: seq<RawRow>)
    ensures forall i :: 0 <= i < |rows| ==> Complete(rows[i])
    ensures t !in df ==> rows == []
  {
    if t in df then DropNa(df[t]) else []
  }

  /**
    `compute_metrics_for_ticker`: nothing when no row survives `dropna`,
    otherwise the snapshot read from the last row of the derived frame.
  */
  function ComputeMetrics(rows: seq<RawRow>, windows: set<nat>): (r: Option<(Snapshot, seq<Derived>)>)
    requires ValidWindows(windows)
    ensures r.None? <==> DropNa(rows) == []
    ensures r.Some? ==> |r.value.1| == |DropNa(rows)| > 0
    ensures r.Some? ==> forall i :: 0 <= i < |r.value.1| ==> r.value.1[i].sma.Keys == windows
    ensures r.Some? ==> r.value.0 == ReadRow(r.value.1[|r.value.1| - 1])
    ensures r.Some? ==> r.value == (LatestSnapshot(ToBars(DropNa(rows)), windows), Derive(ToBars(DropNa(rows)), windows))
  {
    var d := DropNa(rows);
    if d == [] then None
    else
      var bars := ToBars(d);
      LatestIsLastRow(bars, windows);
      Some((LatestSnapshot(bars, windows), Derive(bars, windows)))
  }

  /**
    The body of the metrics loop for one symbol: None for an empty history,
    otherwise the snapshot `compute_metrics_for_ticker` returns.
  */
  function SnapshotFor(history: seq<RawRow>, windows: set<nat>): (m: Option<Snapshot>)
    requires ValidWindows(windows)
    ensures m.None? <==> DropNa(history) == []
    ensures m.Some? ==> m.value == LatestSnapshot(ToBars(DropNa(history)), windows)
  {
    if history == [] then None
    else
      match ComputeMetrics(history, windows)
      case None => None
      case Some(p) => Some(p.0)
  }

  /** The metrics dict the pipeline builds for `tickers` from the download `df`. */
  function MetricsOf(tickers: seq<string>, df: Dataset, windows: set<nat>): (metrics: Metrics)
    requires ValidWindows(windows)
    ensures metrics.Keys == set t | t in tickers
  {
    map t | t in tickers :: SnapshotFor(HistoryOf(df, t), windows)
  }

  /**
    A symbol's snapshot depends on its own history alone: replacing or
    dropping another symbol's data, as a failed download of it would, does not
    change it.
  */
  lemma FailureIsolated(tickers: seq<string>, df: Dataset, windows: set<nat>, u: string, rows: seq<RawRow>, t: string)
    requires ValidWindows(windows) && t in tickers && t != u
    ensures MetricsOf(tickers, df[u := rows], windows)[t] == MetricsOf(tickers, df, windows)[t]
    ensures MetricsOf(tickers, df - {u}, windows)[t] == MetricsOf(tickers, df, windows)[t]
  {
  }

  /** A symbol missing from the download, or with no complete row, gets no snapshot. */
  lemma MissingSymbolHasNoSnapshot(tickers: seq<string>, df: Dataset, windows: set<nat>, t: string)
    requires ValidWindows(windows) && t in tickers
    requires t !in df || DropNa(df[t]) == []
    ensures MetricsOf(tickers, df, windows)[t] == None
  {
    if t in df {
      DropNaIdempotent(df[t]);
    }
  }

  /**
    The snapshot does not depend on which extra SMA windows the frame carries:
    sector_analysis.py's SMA10 column never reaches the snapshot.
  */
  lemma SnapshotIgnoresExtraWindows(history: seq<RawRow>, w1: set<nat>, w2: set<nat>)
    requires ValidWindows(w1) && ValidWindows(w2)
    ensures SnapshotFor(history, w1) == SnapshotFor(history, w2)
  {
    var d := DropNa(history);
    if history != [] && d != [] {
      var bars := ToBars(d);
      var s1 := LatestSnapshot(bars, w1);
      var s2 := LatestSnapshot(bars, w2);
      assert s1.rvol20 == s2.rvol20 && s1.atrPct == s2.atrPct && s1.ret5 == s2.ret5;
    }
  }

  /**
    The split loop: `history[t] = df[t].dropna()` for every ticker, an empty
    frame for a ticker the download lacks.
  */
  method SplitHistory(tickers: seq<string>, df: Dataset) returns (history: map<string, seq<RawRow>>)
    ensures history.Keys == set t | t in tickers
    ensures forall t :: t in history ==> history[t] == HistoryOf(df, t)
  {
    history := map[];
    for i := 0 to |tickers|
      invariant history.Keys == set t | t in tickers[..i]
      invariant forall t :: t in history ==> history[t] == HistoryOf(df, t)
    {
      assert forall t :: t in tickers[..i + 1] <==> t in tickers[..i] || t == tickers[i];
      var frame: seq<RawRow> := if tickers[i] in df then DropNa(df[tickers[i]]) else [];
      history := history[tickers[i] := frame];
    }
    assert tickers[..|tickers|] == tickers;
  }

  /**
    The metrics loop: an empty history gives None, and so does a failing
    computation, without stopping the loop.
  */
  method ComputeAllMetrics(tickers: seq<string>, history: map<string, seq<RawRow>>, windows: set<nat>)
    returns (metrics: Metrics)
    requires ValidWindows(windows)
    requires forall t :: t in tickers ==> t in history
    ensures metrics.Keys == set t | t in tickers
    ensures forall t :: t in metrics ==> metrics[t] == SnapshotFor(history[t], windows)
  {
    metrics := map[];
    for i := 0 to |tickers|
      invariant metrics.Keys == set t | t in tickers[..i]
      invariant forall t :: t in metrics ==> metrics[t] == SnapshotFor(history[t], windows)
    {
      assert forall t :: t in tickers[..i + 1] <==> t in tickers[..i] || t == tickers[i];
      var t := tickers[i];
      var dft := history[t];
      if dft == [] {
        metrics := metrics[t := None];
      } else {
        match ComputeMetrics(dft, windows)
        case None =>
          metrics := metrics[t := None];
        case Some(p) =>
          metrics := metrics[t := Some(p.0)];
      }
    }
    assert tickers[..|tickers|] == tickers;
  }

  /** Splitting then computing yields exactly the metrics of the download. */
  method SnapshotAll(tickers: seq<string>, df: Dataset, windows: set<nat>) returns (metrics: Metrics)
    requires ValidWindows(windows)
    ensures metrics == MetricsOf(tickers, df, windows)
  {
    var history := SplitHistory(tickers, df);
    metrics := ComputeAllMetrics(tickers, history, windows);
  }

  // ------------------------------------------------------------- sector rows

  /** The snapshots of an ETF's leaders, in leader order. */
  function LeaderMetrics(etf: string, metrics: Metrics): (ms: seq<Option<Snapshot>>)
    ensures |ms| == |LeadersOf(etf)|
    ensures forall i :: 0 <= i < |ms| ==> ms[i] == Lookup(metrics, LeadersOf(etf)[i])
  {
    var leaders := LeadersOf(etf);
    seq(|leaders|, i requires 0 <= i < |leaders| => Lookup(metrics, leaders[i]))
  }

  /** `comp_metrics = {t: metrics.get(t) for t in leaders}` as its list of items. */
  function LeaderComp(etf: string, metrics: Metrics): (comp: seq<(string, Option<Snapshot>)>)
    ensures |comp| == |LeadersOf(etf)|
    ensures forall i :: 0 <= i < |comp| ==> comp[i] == (LeadersOf(etf)[i], Lookup(metrics, LeadersOf(etf)[i]))
  {
    var leaders := LeadersOf(etf);
    seq(|leaders|, i requires 0 <= i < |leaders| => (leaders[i], Lookup(metrics, leaders[i])))
  }

  function Tickers(cs: seq<Candidate>): (ts: seq<string>)
    ensures |ts| == |cs|
    ensures forall i :: 0 <= i < |cs| ==> ts[i] == cs[i].ticker
  {
    seq(|cs|, i requires 0 <= i < |cs| => cs[i].ticker)
  }

  function Digit(flag: bool): char { if flag then '1' else '0' }

  /** The "Above 20/50/200" text, e.g. "1/0/1". */
  function TrendText(m: Snapshot): (s: string)
    ensures |s| == 5 && s[1] == '/' && s[3] == '/'
    ensures (s[0] == '1' <==> m.above20) && (s[2] == '1' <==> m.above50) && (s[4] == '1' <==> m.above200)
  {
    [Digit(m.above20), '/', Digit(m.above50), '/', Digit(m.above200)]
  }

  /**
    One row of the sector table, before display rounding. An undefined value
    (None or NaN in the source) is None; the breadth cell that the source shows
    as "-" (or None in app.py) is None too.
  */
  datatype SectorRow = SectorRow(
    etf: string,
    sector: string,
    score: Option<real>,
    rvol20: Option<real>,
    trend: Option<string>,
    breadth: Option<real>,
    ret5Pct: Option<real>,
    atrPct: Option<real>,
    topCandidates: seq<string>)

  /** The row dict the table loop appends for `etf`, given the candidates it picked. */
  function RowFor(etf: string, metrics: Metrics, best: seq<Candidate>): SectorRow
    requires IsKnownEtf(etf)
  {
    var m := Lookup(metrics, etf);
    var br := SectorBreadth(LeaderMetrics(etf, metrics));
    SectorRow(
      etf,
      SectorNames[etf],
      ScoreSector(m, br, 0.0),
      if m.None? then None else m.value.rvol20,
      if m.None? then None else Some(TrendText(m.value)),
      br,
      if m.None? || m.value.ret5.None? then None else Some(m.value.ret5.value * 100.0),
      if m.None? then None else m.value.atrPct,
      Tickers(best))
  }

  /**
    The cells of a sector row: its score is undefined exactly when the ETF's
    snapshot (or its RVOL20 or 5-bar return) is; its breadth is undefined
    exactly when no leader has a snapshot and otherwise lies in [0, 1]; the
    ETF's own cells are empty when it has no snapshot.
  */
  lemma RowCells(etf: string, metrics: Metrics, best: seq<Candidate>)
    requires IsKnownEtf(etf)
    ensures RowFor(etf, metrics, best).etf == etf
    ensures RowFor(etf, metrics, best).sector == SectorNames[etf]
    ensures RowFor(etf, metrics, best).score.None? <==>
      Lookup(metrics, etf).None? || !Scorable(Lookup(metrics, etf).value)
    ensures RowFor(etf, metrics, best).breadth.None? <==>
      forall t :: t in LeadersOf(etf) ==> Lookup(metrics, t).None?
    ensures RowFor(etf, metrics, best).breadth.Some? ==> 0.0 <= RowFor(etf, metrics, best).breadth.value <= 1.0
    ensures Lookup(metrics, etf).None? ==>
      RowFor(etf, metrics, best).rvol20.None? && RowFor(etf, metrics, best).trend.None?
      && RowFor(etf, metrics, best).ret5Pct.None? && RowFor(etf, metrics, best).atrPct.None?
  {
    var ms := LeaderMetrics(etf, metrics);
    forall t | t in LeadersOf(etf) ensures Lookup(metrics, t) in ms {
      var i :| 0 <= i < |LeadersOf(etf)| && LeadersOf(etf)[i] == t;
      assert ms[i] == Lookup(metrics, t);
    }
  }

  /**
    The candidates a sector row names: at most three, each a leader of the
    sector whose snapshot passes the swing filter.
  */
  lemma RowCandidates(etf: string, metrics: Metrics, best: seq<Candidate>)
    requires IsKnownEtf(etf)
    requires IsBestPick(LeaderComp(etf, metrics), 3, best)
    ensures |RowFor(etf, metrics, best).topCandidates| <= 3
    ensures forall t :: t in RowFor(etf, metrics, best).topCandidates ==>
      t in LeadersOf(etf) && Lookup(metrics, t).Some? && SwingOk(Lookup(metrics, t).value)
  {
    PickedTickers(etf, metrics, best);
  }

  lemma PickedTickers(etf: string, metrics: Metrics, best: seq<Candidate>)
    requires IsBestPick(LeaderComp(etf, metrics), 3, best)
    ensures |Tickers(best)| <= 3
    ensures forall t :: t in Tickers(best) ==>
      t in LeadersOf(etf) && Lookup(metrics, t).Some? && SwingOk(Lookup(metrics, t).value)
  {
    var comp := LeaderComp(etf, metrics);
    var ts := Tickers(best);
    PickedFromLeaders(comp, 3, best);
    forall t | t in ts
      ensures t in LeadersOf(etf) && Lookup(metrics, t).Some? && SwingOk(Lookup(metrics, t).value)
    {
      var k :| 0 <= k < |best| && ts[k] == t;
      var i :| 0 <= i < |comp| && comp[i].1.Some? && best[k].ticker == comp[i].0 && SwingOk(comp[i].1.value);
      assert comp[i].0 == LeadersOf(etf)[i];
    }
  }

  /** XLC has no leader list: its breadth is undefined and it never names a candidate. */
  lemma LeaderlessSector(metrics: Metrics, best: seq<Candidate>)
    requires IsBestPick(LeaderComp("XLC", metrics), 3, best)
    ensures RowFor("XLC", metrics, best).breadth.None?
    ensures RowFor("XLC", metrics, best).topCandidates == []
  {
    EtfTable();
    assert LeaderComp("XLC", metrics) == [];
    NoLeadersNoCandidates(3, best);
  }

  /** Row `i` was built for `etfs[i]` from a pick among that ETF's leaders. */
  ghost predicate RowsFor(etfs: seq<string>, metrics: Metrics, rows: seq<SectorRow>, best: seq<seq<Candidate>>)
  {
    && |rows| == |etfs| && |best| == |etfs|
    && (forall e :: e in etfs ==> IsKnownEtf(e))
    && forall i :: 0 <= i < |etfs| ==>
         IsBestPick(LeaderComp(etfs[i], metrics), 3, best[i]) && rows[i] == RowFor(etfs[i], metrics, best[i])
  }

  lemma RowsForSnoc(etfs: seq<string>, metrics: Metrics, rows: seq<SectorRow>, best: seq<seq<Candidate>>,
                    etf: string, good: seq<Candidate>)
    requires RowsFor(etfs, metrics, rows, best) && IsKnownEtf(etf)
    requires IsBestPick(LeaderComp(etf, metrics), 3, good)
    ensures RowsFor(etfs + [etf], metrics, rows + [RowFor(etf, metrics, good)], best + [good])
  {
    var etfs', rows', best' := etfs + [etf], rows + [RowFor(etf, metrics, good)], best + [good];
    forall i | 0 <= i < |etfs'|
      ensures IsBestPick(LeaderComp(etfs'[i], metrics), 3, best'[i]) && rows'[i] == RowFor(etfs'[i], metrics, best'[i])
    {
      if i < |etfs| {
        assert etfs'[i] == etfs[i] && rows'[i] == rows[i] && best'[i] == best[i];
      }
    }
  }

  /**
    The table loop: for every ETF, its breadth, score and candidate pick,
    appended as one row; `best[i]` is the `best` list of row `i`.
  */
  method BuildRows(etfs: seq<string>, metrics: Metrics) returns (rows: seq<SectorRow>, best: seq<seq<Candidate>>)
    requires forall e :: e in etfs ==> IsKnownEtf(e)
    ensures RowsFor(etfs, metrics, rows, best)
  {
    rows := [];
    best := [];
    for i := 0 to |etfs|
      invariant RowsFor(etfs[..i], metrics, rows, best)
    {
      var etf := etfs[i];
      var good, _, _ := PickTopComponents(LeaderComp(etf, metrics), 3);
      assert etfs[..i + 1] == etfs[..i] + [etf];
      RowsForSnoc(etfs[..i], metrics, rows, best, etf, good);
      rows := rows + [RowFor(etf, metrics, good)];
      best := best + [good];
    }
    assert etfs[..|etfs|] == etfs;
  }

  // ----------------------------------------------------------------- ranking

  /** Rows are ordered by score; an undefined score sorts last. */
  function RowKey(r: SectorRow): Key
  {
    [r.score]
  }

  /**
    `pd.DataFrame(rows).sort_values("Score", ascending=False)`: the same rows,
    by descending score with undefined scores last. Ties come in no promised
    order.
  */
  method RankRows(rows: seq<SectorRow>) returns (table: seq<SectorRow>)
    ensures multiset(table) == multiset(rows)
    ensures SortedDesc(table, RowKey)
  {
    table := SortDescending(rows, RowKey);
  }

  /**
    Everything the dashboards do after the download: the snapshot of every
    symbol, one row and one pick per ETF, and the rows ranked by score.
  */
  method TableFromDownload(etfs: seq<string>, tickers: seq<string>, df: Dataset, windows: set<nat>)
    returns (table: seq<SectorRow>, best: seq<seq<Candidate>>, ghost metrics: Metrics, ghost rows: seq<SectorRow>)
    requires ValidWindows(windows)
    requires forall e :: e in etfs ==> IsKnownEtf(e)
    ensures metrics == MetricsOf(tickers, df, windows)
    ensures RowsFor(etfs, metrics, rows, best)
    ensures multiset(table) == multiset(rows) && SortedDesc(table, RowKey)
  {
    var snapshots := SnapshotAll(tickers, df, windows);
    var sectorRows, picks := BuildRows(etfs, snapshots);
    table := RankRows(sectorRows);
    best, metrics, rows := picks, snapshots, sectorRows;
  }

  /** In a ranked table every defined score precedes every undefined one, and defined scores never increase. */
  lemma RankedTableOrder(table: seq<SectorRow>, i: nat, j: nat)
    requires SortedDesc(table, RowKey) && i < j < |table|
    ensures table[i].score.None? ==> table[j].score.None?
    ensures table[i].score.Some? && table[j].score.Some? ==> table[i].score.value >= table[j].score.value
  {
    assert !KeyLess(RowKey(table[i]), RowKey(table[j]));
  }

  /** Row `i` carries the ticker of `etfs[i]`. */
  lemma RowEtfs(etfs: seq<string>, metrics: Metrics, rows: seq<SectorRow>, best: seq<seq<Candidate>>)
    requires RowsFor(etfs, metrics, rows, best)
    ensures |rows| == |etfs|
    ensures forall i :: 0 <= i < |rows| ==> rows[i].etf == etfs[i]
  {
  }

  /** Ranking neither loses nor duplicates an ETF: each selected ETF keeps its one row. */
  lemma RankingKeepsEveryEtf(etfs: seq<string>, metrics: Metrics, rows: seq<SectorRow>,
                             best: seq<seq<Candidate>>, table: seq<SectorRow>)
    requires RowsFor(etfs, metrics, rows, best)
    requires multiset(table) == multiset(rows)
    ensures |table| == |etfs|
    ensures forall r :: r in table ==> r.etf in etfs
    ensures forall e :: e in etfs ==> exists r :: r in table && r.etf == e
  {
    RowEtfs(etfs, metrics, rows, best);
    assert |table| == |multiset(table)| == |multiset(rows)| == |rows|;
    forall r | r in table ensures r.etf in etfs {
      assert r in multiset(rows);
      var i :| 0 <= i < |rows| && rows[i] == r;
    }
    forall e | e in etfs ensures exists r :: r in table && r.etf == e {
      var i :| 0 <= i < |etfs| && etfs[i] == e;
      assert rows[i] in multiset(table);
      assert rows[i].etf == e;
    }
  }

  /** When the ETFs are distinct, the ranked row carrying `etfs[x]` is the row built for it. */
  lemma RankedRowOf(etfs: seq<string>, rows: seq<SectorRow>, table: seq<SectorRow>, x: nat)
    requires |rows| == |etfs| && forall i :: 0 <= i < |rows| ==> rows[i].etf == etfs[i]
    requires NoDuplicates(etfs) && multiset(table) == multiset(rows) && x < |etfs|
    ensures forall r :: r in table && r.etf == etfs[x] ==> r == rows[x]
  {
    forall r | r in table && r.etf == etfs[x]
      ensures r == rows[x]
    {
      assert r in multiset(rows);
      var i :| 0 <= i < |rows| && rows[i] == r;
      assert etfs[i] == etfs[x];
    }
  }

  /** When the ETFs are distinct, so are the ETFs of the ranked table: one row per ETF. */
  lemma OneRowPerEtf(etfs: seq<string>, metrics: Metrics, rows: seq<SectorRow>,
                     best: seq<seq<Candidate>>, table: seq<SectorRow>)
    requires RowsFor(etfs, metrics, rows, best) && NoDuplicates(etfs)
    requires multiset(table) == multiset(rows)
    ensures forall i, j :: 0 <= i < j < |table| ==> table[i].etf != table[j].etf
  {
    RowEtfs(etfs, metrics, rows, best);
    DistinctEtfsSurvivePermutation(rows, table);
  }

  lemma DistinctEtfsSurvivePermutation(rows: seq<SectorRow>, table: seq<SectorRow>)
    requires forall i, j :: 0 <= i < j < |rows| ==> rows[i].etf != rows[j].etf
    requires multiset(table) == multiset(rows)
    ensures forall i, j :: 0 <= i < j < |table| ==> table[i].etf != table[j].etf
  {
    PermutationKeepsDistinct(rows, table);
    forall i, j | 0 <= i < j < |table|
      ensures table[i].etf != table[j].etf
    {
      assert table[i] in multiset(rows) && table[j] in multiset(rows);
      var k :| 0 <= k < |rows| && rows[k] == table[i];
      var l :| 0 <= l < |rows| && rows[l] == table[j];
      assert k != l;
    }
  }

  /** Fills a dict keyed by ETF inside the table loop: `table[etfs[i]] = xs[i]`. */
  method IndexByEtf<T>(etfs: seq<string>, xs: seq<T>) returns (m: map<string, T>)
    requires |xs| == |etfs| && NoDuplicates(etfs)
    ensures m.Keys == set e | e in etfs
    ensures forall i :: 0 <= i < |etfs| ==> m[etfs[i]] == xs[i]
  {
    m := map[];
    for i := 0 to |etfs|
      invariant m.Keys == set e | e in etfs[..i]
      invariant forall k :: 0 <= k < i ==> m[etfs[k]] == xs[k]
    {
      assert forall e :: e in etfs[..i + 1] <==> e in etfs[..i] || e == etfs[i];
      m := m[etfs[i] := xs[i]];
    }
    assert etfs[..|etfs|] == etfs;
  }
}
