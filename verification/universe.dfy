/**
  The fixed reference data of the engine: the eleven sector ETFs (in table
  order) with their sector names, and the leader stocks of each sector.
  fetch_data.py, sector_analysis.py and parse_input.py each carry an identical
  copy of these tables; this module is the one model of all three.
*/
module Universe {
  import opened Common

  /** The keys of SECTOR_ETFS, in the dict's insertion order. */
  const Etfs: seq<string> :=
    ["SMH", "XLK", "XLC", "XLF", "XLE", "XBI", "XLV", "XLI", "IWM", "QQQ", "SPY"]

  const SectorNames: map<string, string> := map[
    "SMH" := "Semiconductors",
    "XLK" := "Tech",
    "XLC" := "Comm Services",
    "XLF" := "Financials",
    "XLE" := "Energy",
    "XBI" := "Biotech",
    "XLV" := "Healthcare",
    "XLI" := "Industrials",
    "IWM" := "Small Caps",
    "QQQ" := "Nasdaq",
    "SPY" := "S&P"
  ]

  /** LEADERS; note that XLC has no entry. */
  const Leaders: map<string, seq<string>> := map[
    "SMH" := ["NVDA", "AMD", "AVGO", "TSM", "MU", "ASML", "AMAT", "SMCI"],
    "XLK" := ["MSFT", "AAPL", "META", "GOOGL", "CRM", "ADBE", "NOW"],
    "XLF" := ["JPM", "BAC", "MS", "GS", "C", "SCHW"],
    "XLE" := ["XOM", "CVX", "SLB", "COP", "EOG"],
    "XBI" := ["VRTX", "REGN", "LLY", "MRNA", "CRSP", "BEAM"],
    "XLV" := ["UNH", "JNJ", "PFE", "ABBV", "DHR", "TMO"],
    "XLI" := ["CAT", "DE", "HON", "GE", "BA"],
    "IWM" := ["PLTR", "SMCI", "CELH", "RBLX", "RIVN", "AFRM"],
    "QQQ" := ["NVDA", "MSFT", "AAPL", "META", "AMZN", "GOOGL"],
    "SPY" := ["MSFT", "AAPL", "NVDA", "AMZN", "META", "GOOGL"]
  ]

  /** LOOKBACK_DAYS of fetch_data.py and of sector_analysis.py. */
  const FetchLookbackDays: int := 220
  const AnalysisLookbackDays: int := 180

  /** `etf in SECTOR_ETFS`. */
  predicate IsKnownEtf(etf: string)
  {
    etf in SectorNames
  }

  /** `LEADERS.get(etf, [])`. */
  function LeadersOf(etf: string): seq<string>
  {
    if etf in Leaders then Leaders[etf] else []
  }

  /** The ordered key list and the name table describe the same eleven ETFs, each once. */
  lemma EtfTable()
    ensures forall e :: IsKnownEtf(e) <==> e in Etfs
    ensures NoDuplicates(Etfs)
    ensures |Etfs| == 11
    ensures Leaders.Keys <= SectorNames.Keys
    ensures LeadersOf("XLC") == []
  {
  }

  /** No sector lists a leader twice, so a `{t: ... for t in leaders}` dict keeps every leader. */
  lemma LeaderListsDistinct()
    ensures forall e :: NoDuplicates(LeadersOf(e))
  {
  }
}
