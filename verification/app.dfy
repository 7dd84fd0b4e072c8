/**
  app.py: `compute_sector_dashboard`, which runs sector_analysis.py's engine
  over a caller-chosen look-back and returns the ranked table together with
  each sector's candidate list.
*/
module App {
  import opened Common
  import opened Universe
  import opened Indicators
  import opened Aggregation
  import opened Sorting
  import opened Selection
  import opened Engine
  import opened Download
  import SectorAnalysis

  /** One candidate dict: ticker, RVOL20, 5-bar return in percent, ATR% and the swing flag. */
  datatype CandidateRow = CandidateRow(ticker: string, rvol20: Option<real>, ret5Pct: Option<real>,
                                       atrPct: Option<real>, swingOk: bool)

  function ToCandidateRow(c: Candidate): CandidateRow
  {
    CandidateRow(c.ticker, c.rvol20, if c.ret5.None? then None else Some(c.ret5.value * 100.0), c.atrPct, c.ok)
  }

  /** The `cand_list` loop: one dict per picked candidate, in pick order. */
  method CandidateList(best: seq<Candidate>) returns (cands: seq<CandidateRow>)
    ensures |cands| == |best|
    ensures forall k :: 0 <= k < |best| ==> cands[k] == ToCandidateRow(best[k])
  {
    cands := [];
    for k := 0 to |best|
      invariant |cands| == k
      invariant forall j :: 0 <= j < k ==> cands[j] == ToCandidateRow(best[j])
    {
      cands := cands + [ToCandidateRow(best[k])];
    }
  }

  function CandidateTickers(cands: seq<CandidateRow>): (ts: seq<string>)
    ensures |ts| == |cands|
    ensures forall k :: 0 <= k < |cands| ==> ts[k] == cands[k].ticker
  {
    seq(|cands|, k requires 0 <= k < |cands| => cands[k].ticker)
  }

  /** `candidates_by_sector[etf]` lists the pick `best[i]` of `etfs[i]`, converted to dicts. */
  ghost predicate CandidatesFor(etfs: seq<string>, best: seq<seq<Candidate>>, bySector: map<string, seq<CandidateRow>>)
  {
    && |best| == |etfs|
    && bySector.Keys == (set e | e in etfs)
    && forall i :: 0 <= i < |etfs| ==>
         etfs[i] in bySector && |bySector[etfs[i]]| == |best[i]|
         && forall k :: 0 <= k < |best[i]| ==> bySector[etfs[i]][k] == ToCandidateRow(best[i][k])
  }

  /** The per-ETF part of the table loop that fills `candidates_by_sector`. */
  method CandidatesBySector(etfs: seq<string>, components: map<string, seq<Candidate>>, ghost best: seq<seq<Candidate>>)
    returns (bySector: map<string, seq<CandidateRow>>)
    requires |best| == |etfs| && NoDuplicates(etfs)
    requires forall i :: 0 <= i < |etfs| ==> etfs[i] in components && components[etfs[i]] == best[i]
    ensures CandidatesFor(etfs, best, bySector)
  {
    var lists: seq<seq<CandidateRow>> := [];
    for i := 0 to |etfs|
      invariant |lists| == i
      invariant forall j :: 0 <= j < i ==>
        |lists[j]| == |best[j]| && forall k :: 0 <= k < |best[j]| ==> lists[j][k] == ToCandidateRow(best[j][k])
    {
      var cands := CandidateList(components[etfs[i]]);
      lists := lists + [cands];
    }
    bySector := IndexByEtf(etfs, lists);
    assert forall i :: 0 <= i < |etfs| ==> etfs[i] in etfs;
  }

  /**
    `compute_sector_dashboard(lookback_days)`: one download of every ETF and
    leader, the metrics of every symbol, one row per ETF ranked by score, and
    the candidate dicts of every ETF.
  */
  method ComputeSectorDashboard(lookbackDays: int, source: MarketDataSource)
    returns (table: seq<SectorRow>, candidatesBySector: map<string, seq<CandidateRow>>,
             ghost tickers: seq<string>, ghost df: Dataset, ghost metrics: Metrics,
             ghost rows: seq<SectorRow>, ghost best: seq<seq<Candidate>>)
    modifies source
    ensures forall t :: t in tickers <==> InUniverse(Etfs, t)
    ensures source.calls == old(source.calls) + [(tickers, lookbackDays)]
    ensures df == source.feed(|old(source.calls)|, tickers, lookbackDays)
    ensures metrics == MetricsOf(tickers, df, SectorAnalysis.Windows)
    ensures RowsFor(Etfs, metrics, rows, best)
    ensures multiset(table) == multiset(rows) && SortedDesc(table, RowKey)
    ensures CandidatesFor(Etfs, best, candidatesBySector)
    ensures |table| == |Etfs|
  {
    var components;
    table, components, tickers, df, metrics, rows, best := SectorAnalysis.RunDashboard(lookbackDays, source);
    EtfTable();
    candidatesBySector := CandidatesBySector(Etfs, components, best);
    RankingKeepsEveryEtf(Etfs, metrics, rows, best, table);
  }

  /** Every ranked row names, in order, the tickers of its own ETF's candidate list. */
  lemma RowsMatchCandidates(etfs: seq<string>, metrics: Metrics, rows: seq<SectorRow>, best: seq<seq<Candidate>>,
                            table: seq<SectorRow>, bySector: map<string, seq<CandidateRow>>)
    requires RowsFor(etfs, metrics, rows, best)
    requires multiset(table) == multiset(rows)
    requires CandidatesFor(etfs, best, bySector)
    ensures forall r :: r in table ==> r.etf in bySector && r.topCandidates == CandidateTickers(bySector[r.etf])
  {
    forall r | r in table
      ensures r.etf in bySector && r.topCandidates == CandidateTickers(bySector[r.etf])
    {
      assert r in multiset(rows);
      var i :| 0 <= i < |rows| && rows[i] == r;
      assert etfs[i] in etfs;
      assert r.etf == etfs[i] && r.topCandidates == Tickers(best[i]);
      assert CandidateTickers(bySector[etfs[i]]) == Tickers(best[i]);
    }
  }

  /** The dicts of one pick: at most three, each swing-eligible. */
  lemma PickedRowsAreSwingy(comp: seq<(string, Option<Snapshot>)>, good: seq<Candidate>, cands: seq<CandidateRow>)
    requires IsBestPick(comp, 3, good)
    requires |cands| == |good| && forall k :: 0 <= k < |good| ==> cands[k] == ToCandidateRow(good[k])
    ensures |cands| <= 3 && forall c :: c in cands ==> c.swingOk
  {
    var ranked :| IsRanking(comp, ranked) && good == Take(Swingy(ranked), 3);
    forall c | c in cands ensures c.swingOk {
      var k :| 0 <= k < |cands| && cands[k] == c;
      assert good[k] in Swingy(ranked);
    }
  }

  /** Every candidate list holds at most three swing-eligible leaders. */
  lemma CandidateListsAreSwingy(etfs: seq<string>, metrics: Metrics, rows: seq<SectorRow>, best: seq<seq<Candidate>>,
                                bySector: map<string, seq<CandidateRow>>)
    requires RowsFor(etfs, metrics, rows, best)
    requires CandidatesFor(etfs, best, bySector)
    ensures forall e :: e in bySector ==> |bySector[e]| <= 3 && forall c :: c in bySector[e] ==> c.swingOk
  {
    forall e | e in bySector
      ensures |bySector[e]| <= 3 && forall c :: c in bySector[e] ==> c.swingOk
    {
      var i :| 0 <= i < |etfs| && etfs[i] == e;
      PickedRowsAreSwingy(LeaderComp(e, metrics), best[i], bySector[e]);
    }
  }

  /** The row and the candidate list of XLC, the sector without leaders, at position `x`. */
  lemma LeaderlessRow(etfs: seq<string>, x: nat, metrics: Metrics, rows: seq<SectorRow>, best: seq<seq<Candidate>>,
                      table: seq<SectorRow>, bySector: map<string, seq<CandidateRow>>)
    requires RowsFor(etfs, metrics, rows, best) && NoDuplicates(etfs)
    requires x < |etfs| && etfs[x] == "XLC"
    requires multiset(table) == multiset(rows)
    requires CandidatesFor(etfs, best, bySector)
    ensures "XLC" in bySector && bySector["XLC"] == []
    ensures forall r :: r in table && r.etf == "XLC" ==> r.breadth.None?
  {
    RowEtfs(etfs, metrics, rows, best);
    RankedRowOf(etfs, rows, table, x);
    assert IsBestPick(LeaderComp(etfs[x], metrics), 3, best[x]) && rows[x] == RowFor(etfs[x], metrics, best[x]);
    LeaderlessSector(metrics, best[x]);
    assert |best[x]| == |Tickers(best[x])| == 0;
    assert etfs[x] in etfs;
    assert |bySector[etfs[x]]| == |best[x]|;
  }

  /**
    What the endpoint's two results promise, for a distinct list of ETFs that
    includes XLC: one row per ETF, ranked by score; one candidate list per
    ETF, each of at most three swing-eligible leaders; every row's
    `top_candidates` are the tickers of its ETF's candidate list, in order;
    XLC, without leaders, has no breadth and no candidates.
  */
  lemma EndpointFacts(etfs: seq<string>, x: nat, metrics: Metrics, rows: seq<SectorRow>, best: seq<seq<Candidate>>,
                      table: seq<SectorRow>, bySector: map<string, seq<CandidateRow>>)
    requires RowsFor(etfs, metrics, rows, best) && NoDuplicates(etfs)
    requires x < |etfs| && etfs[x] == "XLC"
    requires multiset(table) == multiset(rows)
    requires CandidatesFor(etfs, best, bySector)
    ensures |table| == |etfs|
    ensures forall e :: e in etfs ==> exists r :: r in table && r.etf == e
    ensures forall i, j :: 0 <= i < j < |table| ==> table[i].etf != table[j].etf
    ensures forall r :: r in table ==> r.etf in bySector && r.topCandidates == CandidateTickers(bySector[r.etf])
    ensures forall e :: e in bySector ==> |bySector[e]| <= 3 && forall c :: c in bySector[e] ==> c.swingOk
    ensures "XLC" in bySector && bySector["XLC"] == []
    ensures forall r :: r in table && r.etf == "XLC" ==> r.breadth.None?
  {
    RankingKeepsEveryEtf(etfs, metrics, rows, best, table);
    OneRowPerEtf(etfs, metrics, rows, best, table);
    RowsMatchCandidates(etfs, metrics, rows, best, table, bySector);
    CandidateListsAreSwingy(etfs, metrics, rows, best, bySector);
    LeaderlessRow(etfs, x, metrics, rows, best, table, bySector);
  }
}
