# Sector-rotation dashboard, modelled in Dafny

The system ranks the eleven US sector ETFs (XLK, XLF, ... XLC) from one
daily OHLCV download:

- **Indicators.** For every ETF and every "leader" stock of a sector, a
  snapshot is read from the last bar of its cleaned history. It holds the true
  range, ATR20 as a percentage of the close, SMA20/50/200, RVOL20, the 5-bar
  return and the three "close above SMA" flags.
- **Sector score.** A sector's breadth is the share of its leaders that close
  above their SMA20. Its score is a weighted sum of four clipped sub-scores
  between 0 and 100. Its swing candidates are the top three leaders that pass
  an eligibility filter, ranked by (ATR%, RVOL20, 5-bar return).
- **Three dashboard drivers.**
  - `build_sector_dashboard` (fetch_data.py) works over a caller-selected
    subset and a download cache.
  - `main` (sector_analysis.py) covers every sector.
  - `compute_sector_dashboard` (app.py) also returns each sector's candidate
    dicts.
  - Each builds one row per ETF and orders the rows by score, undefined
    scores last.
- **Post-processing.** interpret_results.py classifies each table row's
  trading style, formats the rows for a language model and cleans the model's
  structured answer: it trims strong/weak sector lists and drops "basing"
  flags on sectors with poor breadth. parse_input.py turns the model's reply
  to the user's prompt into a list of sector ETFs, with a whole-word ticker
  scan of the prompt as fallback.

Modules, one concern each:

- `Common`: Option/Result, sums and means, joins, subsequences.
- `Strings`: Python string order, `sorted(set(...))`, `str.upper`,
  whole-word search.
- `Sorting`: descending sort on tuples of possibly undefined numbers.
- `Values`: the Python values of decoded JSON and table rows.
- `Universe`: the ETF and leader tables.
- `Indicators`: per-bar columns and the snapshot.
- `Aggregation`: breadth and score.
- `Selection`: the candidate pick.
- `Engine`: the shared dashboard loop.
- `Download`: the feed and the cache.
- `FetchData`, `SectorAnalysis`, `App`, `Interpret`, `ParseInput`: one per
  source file.

Prices are reals. pandas' NaN, a `None` snapshot and the infinities of a
division by zero are all `None`. The market-data feed, `json.loads` and
`str()` of non-string values are parameters.

## Model

| member | source | states |
|---|---|---|
| Indicators.TrueRange | fetch_data.py:43-48 | the true range is at least each of high-low, abs(high-prevClose) and abs(low-prevClose), and equals one of them |
| Indicators.FirstTrueRange | fetch_data.py:79-83 | the first bar uses its own close as previous close, so its true range is high-low |
| Indicators.DropNa | fetch_data.py:75 | keeps exactly the complete rows, in their original order |
| Indicators.DropNaIdempotent | fetch_data.py:75 | cleaning a cleaned history changes nothing |
| Indicators.LatestSnapshot | fetch_data.py:93-107 | the snapshot is read from the last bar: close and volume of that bar; SMA-n is the mean of the last n closes once n bars exist; ATR% is the mean of the last 20 true ranges over the close, times 100; RVOL20 is volume over the 20-bar mean volume; the 5-bar return is close over the close 5 bars back, minus 1, defined from 6 bars on; each aboveN flag holds exactly when SMA-n is defined and the close exceeds it |
| Indicators.LatestIsLastRow | fetch_data.py:93 | the snapshot equals the reading of the last row of the derived frame |
| Indicators.NoLookAhead | fetch_data.py:79-91 | a derived row depends only on the bars up to it: truncating later bars does not change it |
| Indicators.SnapshotOfPrefix | fetch_data.py:79-93 | the snapshot of the first j bars is row j-1 of the full frame |
| Indicators.RvolNonNegative | fetch_data.py:90 | with non-negative volumes, a defined RVOL20 is non-negative |
| Aggregation.SectorBreadth | fetch_data.py:111-113 | undefined exactly when no leader has a snapshot; otherwise the share of snapshotted leaders above SMA20, within [0,1] |
| Aggregation.BreadthIgnoresMissingLeaders | fetch_data.py:112 | inserting a leader without a snapshot anywhere leaves breadth unchanged |
| Aggregation.ScoreSector | fetch_data.py:116-127 | undefined exactly when the ETF has no snapshot or its RVOL20 or 5-bar return is undefined |
| Aggregation.ScoreBounds | fetch_data.py:120-126 | for a non-negative RVOL20 and a breadth in [0,1] or undefined, the score lies in [0,100] |
| Aggregation.MomentumFloor | fetch_data.py:123-124 | with the default cut 0 the momentum term contributes at least 7.5, and so does the score |
| Aggregation.ScoreMonotoneInBreadth | fetch_data.py:122-126 | a larger breadth never lowers the score |
| Aggregation.UndefinedBreadthScoresAsZero | fetch_data.py:122 | undefined breadth scores as breadth 0 |
| Aggregation.WorkedExample | fetch_data.py:116-127 | RVOL 1.8, all three flags set, breadth 1 and a 2% return score 91.5 |
| Selection.CandidateRows | fetch_data.py:131-136 | one candidate per leader with a snapshot, and nothing else |
| Selection.Swingy | fetch_data.py:139 | exactly the eligible candidates, in their ranked order |
| Selection.SwingySorted | fetch_data.py:138-139 | filtering a ranked list keeps it ranked |
| Selection.PickTopComponents | fetch_data.py:130-140 | returns the first n eligible rows and the first n rows of a descending (ATR%, RVOL20, ret5) ranking of the candidate rows |
| Selection.PickFacts | fetch_data.py:130-140 | at most n picks; they are ranked, eligible (above SMA20, RVOL20 > 1.2, ATR% >= 2) and leaders with a snapshot; an eligible leader passed over ranks no higher than any pick; fewer than n picks means every eligible leader was picked |
| Selection.RankedPick | fetch_data.py:138-140 | the same facts about the first n eligible rows of any ranked list |
| Selection.PassedOverRanksLower | fetch_data.py:138-140 | an eligible row left out ranks no higher than any row picked |
| Selection.PickedFromLeaders | fetch_data.py:132-136 | every pick is a leader whose snapshot is eligible |
| Selection.NoLeadersNoCandidates | fetch_data.py:130-140 | a sector without leaders gets no picks |
| Universe.EtfTable | fetch_data.py:10-35 | eleven distinct ETFs; every leader list belongs to a known ETF; XLC has no leaders |
| Universe.LeaderListsDistinct | fetch_data.py:24-35 | no leader list repeats a ticker |
| Engine.CollectTickers | fetch_data.py:154-158 | the sorted, duplicate-free union of the ETFs and their leaders |
| Engine.ComputeMetrics | sector_analysis.py:54-80 | nothing when no row survives cleaning; otherwise the snapshot of the cleaned bars (last-bar closed forms of LatestSnapshot) and their derived frame, one row per clean bar, the snapshot being the reading of the last row |
| Engine.SnapshotFor | fetch_data.py:174-182 | a symbol has no snapshot exactly when its cleaned history is empty; otherwise its snapshot is the last-bar snapshot of the cleaned bars |
| Engine.MetricsOf | fetch_data.py:173-182 | one entry per ticker of the universe |
| Engine.FailureIsolated | fetch_data.py:164-182 | changing or removing one symbol's history leaves every other symbol's snapshot unchanged |
| Engine.MissingSymbolHasNoSnapshot | fetch_data.py:166-176 | a symbol missing from the download, or with no complete bar, gets no snapshot |
| Engine.SnapshotIgnoresExtraWindows | sector_analysis.py:62-63 | computing extra SMA columns does not change the snapshot |
| Engine.SplitHistory | fetch_data.py:164-170 | one history per ticker, taken from the download, empty when the symbol is missing |
| Engine.ComputeAllMetrics | fetch_data.py:173-182 | the metrics loop assigns each ticker the snapshot of its own history |
| Engine.SnapshotAll | fetch_data.py:164-182 | the split and metrics loops together compute the metrics of the download |
| Engine.TrendText | fetch_data.py:204 | five characters "a/b/c" whose digits are 1 exactly when the corresponding flag is set |
| Engine.RowCells | fetch_data.py:187-209 | the row names its ETF and sector; its score is undefined exactly when the score is; breadth is undefined exactly when no leader has a snapshot and otherwise lies in [0,1]; without an ETF snapshot the RVOL, trend, return and ATR cells are empty |
| Engine.RowCandidates | fetch_data.py:196-208 | a row's top candidates are at most three of its own leaders, each with an eligible snapshot |
| Engine.LeaderlessSector | fetch_data.py:191-208 | XLC's row has no breadth and no candidates |
| Engine.BuildRows | fetch_data.py:187-209 | the row loop produces, in ETF order, one row per ETF with that ETF's best pick |
| Engine.RankRows | fetch_data.py:211 | the ranked table is a permutation of the rows, ordered by score descending with undefined scores last |
| Engine.TableFromDownload | fetch_data.py:164-211 | from one download: the metrics of the download, the rows of the ETFs and their ranked permutation |
| Engine.RankedTableOrder | fetch_data.py:211 | in the ranked table an undefined score is followed only by undefined scores, and defined scores never increase |
| Engine.RankingKeepsEveryEtf | fetch_data.py:187-211 | the ranked table has one row per ETF entry and every ETF appears |
| Engine.OneRowPerEtf | fetch_data.py:187-211 | for distinct ETFs no two ranked rows share an ETF |
| Engine.RankedRowOf | fetch_data.py:211 | ranking does not alter a row: the ranked row of an ETF is the row built for it |
| Engine.IndexByEtf | sector_analysis.py:181 | the dict keyed by ETF maps each ETF to its own entry |
| Download.MarketDataSource.Fetch | fetch_data.py:60-69 | one request to the feed: the answer is the feed's for this request and the request is appended to the log |
| Download.CacheKey | fetch_data.py:52-56 | the key holds the sorted duplicate-free tickers and the look-back |
| Download.SameTickersSameKey | fetch_data.py:52-56 | the same set of tickers, in any order or with repeats, gives the same key |
| Download.DownloadCache.DownloadDaily | fetch_data.py:51-71 | an empty request is an error and changes nothing; a stored key returns the stored frame without a request; any other key makes one request for the sorted tickers and stores its frame |
| Download.RepeatIsCached | fetch_data.py:51-71 | asking twice for the same tickers makes at most one request and returns the same frame |
| FetchData.ComputeMetricsForTicker | fetch_data.py:74-108 | (None, None) when no row survives cleaning; otherwise the last-bar snapshot of the cleaned bars and their derived frame with SMA20/50/200, the snapshot being the reading of the frame's last row |
| FetchData.KnownOnly | fetch_data.py:146 | keeps exactly the known ETFs of the selection, in the given order |
| FetchData.ResolveUniverse | fetch_data.py:145-151 | no or an empty selection means all ETFs; otherwise the known ETFs of the selection, in order; an error exactly when none is known |
| FetchData.ResolveIdempotent | fetch_data.py:145-151 | resolving a resolved selection gives it back |
| FetchData.DownloadUniverse | fetch_data.py:154-161 | the sorted duplicate-free ticker union of the ETFs; on a cache hit the stored frame and no request, on a miss exactly one request whose frame is stored; every other cache entry stays |
| FetchData.DashboardOver | fetch_data.py:154-211 | the sorted ticker union fetched through the cache (reused without a request on a hit, one request stored on a miss, no other entry touched), the metrics of that frame, one row per selected ETF and their ranked permutation |
| FetchData.BuildSectorDashboard | fetch_data.py:143-212 | an error exactly when no selected ETF is known, then nothing is downloaded or cached; otherwise the ranked table of the resolved ETFs over the cached download, with the cache and the request log changed only as one hit or one miss |
| SectorAnalysis.CopiesAgree | sector_analysis.py:54-80 | the second copy's metrics agree with fetch_data.py's, and its frame also carries SMA10 |
| SectorAnalysis.MetricsAgree | sector_analysis.py:142-155 | both copies compute the same metrics from the same download |
| SectorAnalysis.RunOver | sector_analysis.py:126-184 | one request for the sorted ticker union, the metrics of its frame, the rows and their ranked permutation, and each ETF's picks keyed by ETF |
| SectorAnalysis.RunDashboard | sector_analysis.py:124-184 | the same over all eleven ETFs |
| SectorAnalysis.MainTable | sector_analysis.py:124-184 | a single download with the 180-day look-back, one row per ETF and a pick list for every ETF |
| App.CandidateList | app.py:91-102 | one candidate dict per pick, in pick order |
| App.CandidatesBySector | app.py:61-102 | every ETF maps to the candidate dicts of its own pick |
| App.ComputeSectorDashboard | app.py:19-105 | one request with the caller's look-back; one ranked row per ETF; each ETF's candidate dicts |
| App.RowsMatchCandidates | app.py:87-102 | a row's top candidates are the tickers of its ETF's candidate list, in order |
| App.PickedRowsAreSwingy | app.py:91-101 | a pick's dicts are at most three, each swing-eligible |
| App.CandidateListsAreSwingy | app.py:71-102 | every candidate list has at most three swing-eligible entries |
| App.LeaderlessRow | app.py:63-102 | XLC gets an empty candidate list and a row without breadth |
| App.EndpointFacts | app.py:19-105 | one row per ETF with no ETF twice; rows and candidate lists agree; lists hold at most three swing-eligible entries; XLC has none and no breadth |
| Values.LessThan | interpret_results.py:17 | Python's `<` against a float: a TypeError exactly for non-numbers, false for NaN |
| Values.GreaterThan | interpret_results.py:21 | Python's `>` against a float: a TypeError exactly for non-numbers, false for NaN |
| Values.Canon | interpret_results.py:65-66 | Python equality of hashable values: bools and ints equal the same float |
| Interpret.ClassifyStyle | interpret_results.py:8-28 | never fails on numeric cells; the style is durable, momentum, volatile or neutral exactly as the first matching rule in priority order says; a TypeError only from a non-number compared |
| Interpret.ClassifyNumbers | interpret_results.py:17-28 | on numeric cells, the four rules in their priority order |
| Interpret.FalsyReadsAsZero | interpret_results.py:10-14 | a missing or falsy RVOL, 5D% or ATR% classifies as 0 |
| Interpret.NonNumericBreadthReadsAsZero | interpret_results.py:11-12 | a non-numeric Breadth20 classifies as 0 |
| Interpret.FormatRawRows | interpret_results.py:31-49 | the lines of the rows joined by newlines; a TypeError exactly when some row cannot be classified |
| Interpret.FormatLineIsOneLine | interpret_results.py:45-48 | a row whose cells print without newlines yields a single line |
| Interpret.OneLinePerRow | interpret_results.py:31-49 | the output has exactly one line per row |
| Interpret.LineCarriesStyle | interpret_results.py:43-48 | each line carries its row's style as a "Style=" field |
| Interpret.StrongEtfs | interpret_results.py:65 | the set of the etf values of the dict entries; a TypeError exactly when one is unhashable |
| Interpret.OutsideStrong | interpret_results.py:66 | keeps, in order, exactly the dict entries whose etf is not a strong etf |
| Interpret.NormalizedFacts | interpret_results.py:52-70 | fails exactly on the inputs Python rejects; otherwise only the two keys change, strong is a prefix of length at most 1 of the original and weak is a list |
| Interpret.NormalizedDisjoint | interpret_results.py:65-69 | afterwards no weak entry shares an etf with a strong entry |
| Interpret.NormalizedKeepsOtherWeak | interpret_results.py:66 | a weak dict entry is kept exactly when no kept strong entry has its etf |
| Interpret.StructuredView.NormalizeSmallUniverse | interpret_results.py:52-70 | updates the dict to the normalized one, or leaves it unchanged and reports the TypeError |
| Interpret.RawMap | interpret_results.py:82-86 | keyed by the string ETF of every row and by nothing else |
| Interpret.RawMapLastWins | interpret_results.py:82-86 | when several rows share an ETF, the last one is kept |
| Interpret.LastRowDecides | interpret_results.py:82-104 | the last row of an ETF decides: kept exactly when its breadth, read as 0 when non-numeric, is not below 0.25 |
| Interpret.SplitBasing | interpret_results.py:88-104 | the string entries, in order, split into those with breadth at least 0.25 and those without |
| Interpret.ScrubFacts | interpret_results.py:88-106 | the kept list holds exactly the kept strings; every removed string is reported |
| Interpret.StripKeepsSentence | interpret_results.py:112 | stripping "notes + sentence" strips only the notes' leading spaces |
| Interpret.NotesEndWithRemovalNote | interpret_results.py:109-113 | when something was removed, the notes end with the removal sentence, which replaces absent notes |
| Interpret.NothingRemovedKeepsNotes | interpret_results.py:109-113 | when nothing was removed the notes stay as they were, or become "" if falsy |
| Interpret.StructuredView.ScrubBasing | interpret_results.py:73-115 | a non-list basing entry leaves the dict untouched; otherwise basing becomes the kept strings and notes the updated notes, nothing else changes |
| Interpret.BuildRawMap | interpret_results.py:82-86 | the raw-map loop computes the raw map |
| Interpret.SplitEntries | interpret_results.py:88-104 | the partition loop computes the split |
| ParseInput.Find | parse_input.py:79 | -1 exactly when the character is absent, otherwise its first index |
| ParseInput.RFind | parse_input.py:79 | -1 exactly when the character is absent, otherwise its last index |
| ParseInput.JsonCandidate | parse_input.py:79-81 | present exactly when both braces occur; a non-empty candidate runs from the first "{" to the last "}" |
| ParseInput.KnownUpper | parse_input.py:84-88 | the upper-cased string items that name a known ETF, in order, repeats kept |
| ParseInput.KnownUpperAppend | parse_input.py:84-88 | cleaning distributes over concatenation, so order and repeats carry over |
| ParseInput.ReplySectors | parse_input.py:78-90 | empty when there is no candidate, it fails to decode, is not an object or its `sectors` is not a list; otherwise the cleaned list of that list; only known ETFs either way |
| ParseInput.Scan | parse_input.py:94-101 | the whole-word matches among the tickers, in table order, without repeats |
| ParseInput.ScanTickers | parse_input.py:94-101 | the fallback loop with its seen set computes the scan |
| ParseInput.ExtractSectors | parse_input.py:76-103 | the cleaned reply list when non-empty, otherwise the fallback scan of the upper-cased prompt; only known ETFs either way |
| ParseInput.FallbackFacts | parse_input.py:93-101 | the fallback lists, in table order and once each, exactly the ETFs named as whole words in the prompt |
| ParseInput.SelectionIsAccepted | parse_input.py:103 | any extracted list resolves as a dashboard selection: empty means all ETFs, otherwise itself |

## Left out

- The market-data feed: `yf.download`, the clock-based start/end window and pandas' multi-index split are replaced by a `MarketDataSource` whose answers are a function of the call index, the tickers and the look-back.
- Floating point: prices and indicators are reals. NaN, `None` and the infinities of a division by zero are one undefined value, so IEEE NaN propagation is not modelled.
- `round(..., 1)` and `round(..., 2)`: scores and cells are stated before rounding.
- Aggregation.ScoreSector: undefined also when the ETF's RVOL20 or 5-bar return is undefined. `score_sector` returns NaN explicitly only for a missing snapshot (fetch_data.py:117-118), but `min`/`max` pass a NaN RVOL20 or return through to the score.
- Engine.RankRows: the source sorts on the score rounded to one decimal (fetch_data.py:127, sector_analysis.py:107), so rows whose scores round alike are ties there, left in no promised order. The model sorts on the unrounded score and so orders such rows by it; this ordering carries into TableFromDownload, DashboardOver, BuildSectorDashboard, RunOver, RunDashboard and ComputeSectorDashboard. NaN scores go last in both, and rows with exactly equal scores are left in no promised order.
- Selection.PickTopComponents: Python's `list.sort` is stable, but the contract promises only a descending permutation, not the leaders' order among equal keys. Rows whose keys hold NaN are ranked as if the value were lowest, while Python's comparison with NaN gives no consistent order.
- Selection.PickTopComponents: the eligibility test follows the code: above SMA20, RVOL20 > 1.2 and ATR% >= 2. The 5-bar return is never examined, and the ranking key is (ATR%, RVOL20, 5-bar return), whatever the comments say.
- Column names and display forms: a row carries the values rather than the dict keys of each driver ("ETF" vs "etf"). Top candidates are a list of tickers rather than the comma-joined string of fetch_data.py and sector_analysis.py. An undefined breadth is undefined rather than "-".
- SectorAnalysis.RunDashboard: the ticker union is built from all LEADERS values rather than per selected ETF. Both give the same set, because every leader list belongs to an ETF. The `full_hist` dict is not returned.
- Exceptions inside `compute_metrics_for_ticker` other than an empty history cannot arise in the model, so the `except` branches reduce to the empty-history case.
- `str()` of non-string values and float formatting in `format_raw_rows` and the notes are a `show` parameter. `json.loads` is a `parse` parameter.
- `str.upper` is modelled on ASCII letters only. The regular-expression word boundary `\b` uses ASCII letters, digits and `_` as word characters. `str.strip` uses ASCII whitespace plus the separators 0x1c-0x1f.
- Interpret.StructuredView.ScrubBasing: the notes are read before the basing list is replaced. This is the same result, because the two keys differ.
- Language-model calls, prompt texts, `structure_results`/`interpret_results` plumbing and the async `fetch_data`/`parse_input` state wrappers are external services or glue.
- `config.py`, `sector_graph.py`, `sector_agent.py`, `state.py` and `sector_adapters.py` are not part of this model.
- The FastAPI layer of app.py (`/healthz`, parameter validation, the 502 mapping) is not part of this model. Neither are `print`, `tabulate` and the commented-out CSV output of sector_analysis.py.
- App.EndpointFacts: stated for any duplicate-free ETF list that contains XLC. App.ComputeSectorDashboard supplies the eleven ETFs and the table length.
