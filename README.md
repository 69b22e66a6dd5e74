# Option_Agent decision core in Dafny

This project models the decision logic of Option_Agent, a once-a-day batch
that ranks F&O (futures-and-options) stocks and turns corporate announcements
into options-trade recommendations. It also models the three ingestion
scripts that fill its tables. The model is in Dafny, with proofs.

The database, the LLM, the browser, the HTTP feeds and the CSV reader are
replaced by values:
- price rows, option-chain rows and stored events are sequences;
- the F&O universe is an optional list;
- the LLM, the technical classifier, the two dedup helpers and the library
  parsers (`strptime`, `fromisoformat`, `float`, `fromtimestamp`) are
  function parameters.

Each module follows one source file:

| module | models |
|---|---|
| `Signals` (signals.dfy) | price-history window, pandas feature columns, `score_row`, the per-symbol score and the ranking of all symbols |
| `Options` (options.dfy) | spot price, nearest expiry, moneyness-band liquidity |
| `Candidates` (candidates.dfy) | `get_top_candidates_for_date`: liquidity join, the OR-style floor, sort and truncate |
| `Researcher` (researcher.dfy) | `research_stock_with_announcement`: date-fallback and liquidity searches, direction table, confidence score, trade-ready gate, strategy text; the batch `research_multiple_stocks` |
| `Classifier` (classifier.dfy) | `classify_announcement` fallback and `filter_high_volatility_announcements` |
| `Workflow` (workflow.dfy) | the scrape → classify → research state machine and the daily report |
| `Scraper` (scraper.dfy) | keyword test, symbol extraction, `_parse_date`, per-row normalisation, volatility filter, content-hash dedup and the stored-hash filter |
| `NseIngest` (nse_ingest.dfy) | `classify_event` and the `ingest_bse_events` loop |
| `FnoIngest` (fno_ingest.dfy) | `ingest_fno_db.py`: column parsing, `pick_ltp`, `auto_add_stock_if_missing`, the idempotent row loop |
| `EquityIngest` (equity_ingest.dfy) | `ingest_equity_db.py`: column normalisation, required columns, series filter, the idempotent row loop |
| `Store` (store.dfy) | the SQLAlchemy session with autoflush off, as a class |
| `Cells` (cells.dfy) | pandas cells, `str(x)`, `float(x)`, `to_float_or_none` |
| `Announcements` (announcements.dfy) | announcement records and the label enumerations of app/ai/ai_validator.py |
| `Text`, `Dates`, `Ranking`, `Wrappers` | ASCII string operations, day ordinals, Python's stable descending sort and `s[:n]`, Option/Result |

Prices, ratios and scores are `real`. A NaN or a missing value is
`Option.None`. Dates are day ordinals, so `d - timedelta(days=k)` is `d - k`.

The LLM's JSON dictionary keeps apart a missing key and a key holding null
(`Wrappers.Entry`: `Absent`, `Null`, `Present`). `d.get(k, default)` gives
the default only for a missing key; a null reads as `None`. So a null
`ai_direction` is not "neutral" and passes the classification filter, and a
null `reaction_window` gives the timing "within 1-3 days".

The database is the class `Store.Session`:
- queries read only committed rows, because the session factory sets
  `autoflush=False`;
- `add` stages a row;
- `commit` writes every staged row, or fails on the unique constraints
  `stocks.symbol` and `daily_prices(symbol, date)` and leaves the tables as
  they were.

Each ingestion loop is a method. It is proved to stage exactly what a
specification function computes from the committed tables. Lemmas then show
three things about those functions:
- reloading the same file stages nothing;
- every staged row is new;
- for the equity script, a stock is staged at most once per symbol.

Where the specification text and the code differ, the model follows the
code:
- The candidate ranker measures liquidity with band 0.1 only. It has no
  wider retry and no effective-date fallback.
- The researcher's liquidity search tries band 0.2 on the announcement date
  before it moves to the technicals date.
- The first row's return is NaN (`pct_change`), not 0. It stays NaN through
  `float(x or 0.0)`, so it never earns the +10 for a large move.
- No keyword-weighted dedup tables and no classifier retries exist in the
  code, so none are modelled.

## Model

| member | source | states |
|---|---|---|
| Wrappers.MapAll | scripts/ingest_fno_db.py:114 | a pandas `apply` succeeds iff the function succeeds on every element, and then returns the element results in order |
| Ranking.SortDesc | app/services/signals.py:194 | the sort keeps the length and orders the list by non-increasing key |
| Ranking.SortDescPermutes | app/services/signals.py:194 | the sort is a permutation of its input (equal multisets) |
| Ranking.SortDescStable | app/services/signals.py:194 | the sort is stable: elements with equal keys keep their input order |
| Ranking.SortDescOfSorted | app/candidate/candidate_access.py:52 | sorting a list that is already sorted changes nothing |
| Ranking.SortDescMapMultiset | app/services/stock_researcher.py:317-320 | sorting permutes any projection of the elements too |
| Ranking.SortedPrefixMembers | app/candidate/candidate_access.py:52-53 | every element of a truncated sort comes from the input |
| Ranking.Prefix | app/services/signals.py:195 | `s[:n]` is a prefix of length min(n, len(s)); a negative n counts from the end |
| Ranking.WithKeyPrefix | app/services/signals.py:195 | truncation keeps a prefix of every class of equal keys |
| Dates.MakeDate | app/services/bse_scraper.py:54 | `date(y, m, d)` is defined iff the day exists in that month and year |
| Signals.SelectWindow | app/services/signals.py:26-39 | a row is selected iff it is the symbol's and dated in [end − 2·lookback, end] |
| Signals.PriceHistory | app/services/signals.py:26-58 | the history holds exactly the window rows in ascending date order, and is empty iff no row is in the window |
| Signals.RollingMeanNonNegative | app/services/signals.py:93-99 | a 3-row rolling mean of non-negative values is non-negative |
| Signals.TrueRange | app/services/signals.py:87-90 | true range is at least each of high−low, abs(high−prev_close), abs(low−prev_close), and equals one of them |
| Signals.TrueRanges | app/services/signals.py:87-90 | the true-range column has one entry per row, each that row's true range |
| Signals.ComputeFeatures | app/services/signals.py:61-105 | one feature row per history row, each the row's prev_close, true range, ATR, ATR%, volume mean, spike and gap |
| Signals.FirstOnDate | app/services/signals.py:156-160 | the first history row dated on the target date, or None iff there is none |
| Signals.FeatureAtrPctNonNegative | app/services/signals.py:93-96 | ATR and ATR% are non-negative |
| Signals.ScoreAt | app/services/signals.py:160-171 | the result dictionary carries the symbol and the target date, with a non-negative ATR% and score |
| Signals.ScoreSymbolForDate | app/services/signals.py:140-171 | a defined result is for that symbol and date, with a non-negative ATR% and score |
| Signals.ScoreDefinedIffRowOnDate | app/services/signals.py:150-158 | a symbol has a score iff it has a price row on the target date; a negative lookback gives None |
| Signals.HistoryHasTarget | app/services/signals.py:150-158 | the history has a target-date row iff the table has one |
| Signals.CollectScores | app/services/signals.py:183-192 | no more results than symbols, each for the target date with a non-negative score |
| Signals.CollectScoresSound | app/services/signals.py:186-192 | every collected result is the defined score of one of the symbols |
| Signals.CollectScoresComplete | app/services/signals.py:186-192 | every symbol with a defined score is collected |
| Signals.ScoreAllSymbolsForDate | app/services/signals.py:174-195 | the loop and sort return the specified ranking: at most `limit` entries and no more than symbols, non-increasing scores, all for the target date |
| Signals.ScoreAllShape | app/services/signals.py:194-195 | the ranking has at most `limit` entries and non-increasing scores, all for the target date |
| Signals.SingleRowFeatures | app/services/signals.py:78-103 | on one row: prev_close is its close, ATR is its true range, the return is NaN, and a traded row has spike 1 |
| Signals.VolumeSpikeBounded | app/services/signals.py:99-100 | a volume spike lies in [0, 3] |
| Signals.ScoreMonotone | app/services/signals.py:113-137 | the score is monotone in atr_pct, vol_spike, abs(gap_pct) and abs(return) |
| Signals.ScoreMissingTermsAddNothing | app/services/signals.py:121-135 | a missing term contributes 0; an all-missing row scores 0 |
| Signals.ScoreAllTiesKeepOrder | app/services/signals.py:194-195 | symbols with equal scores keep their enumeration order in the ranking |
| Options.SpotPrice | app/services/options.py:10-19 | spot is None iff there is no price row for (symbol, date); otherwise it is that row's close |
| Options.NearestExpiry | app/services/options.py:22-37 | the minimum expiry ≥ trade date among the symbol's rows of that date, or None iff there is none |
| Options.OptionsLiquidity | app/services/options.py:40-96 | a snapshot exists iff spot > 0, an expiry exists and the band is not dead; it carries that spot and that expiry |
| Options.LiquidityReportedIsLive | app/services/options.py:81-96 | a reported snapshot has non-negative totals, not both zero |
| Options.BandTotalMonotone | app/services/options.py:64-79 | a wider strike band never lowers a total, and a total is non-negative |
| Options.LiquidityWidens | app/services/options.py:64-96 | liquid at band b implies liquid at any b' ≥ b, with totals at least as large |
| Candidates.Qualify | app/candidate/candidate_access.py:31-47 | kept iff a snapshot exists and not (oi < min_oi and volume < min_volume); the kept item has the scores unchanged and the snapshot's spot, expiry, total open interest and total volume |
| Candidates.FilterCandidates | app/candidate/candidate_access.py:28-49 | every candidate is the qualifying form of a base entry (`Qualify` gives it back); no more candidates than base entries |
| Candidates.FilterCandidatesSubsequence | app/candidate/candidate_access.py:28-49 | the candidates' score rows form an order-preserving subsequence of the base ranking |
| Candidates.FilterCandidatesComplete | app/candidate/candidate_access.py:28-49 | every base entry that qualifies is among the candidates, in its qualified form |
| Candidates.GetTopCandidatesForDate | app/candidate/candidate_access.py:10-53 | the loop returns the specified list: at most `limit` and at most 500, non-increasing score |
| Candidates.TopCandidatesShape | app/candidate/candidate_access.py:52-53 | at most `limit` and at most 500 candidates, non-increasing score |
| Candidates.FilterKeepsOrder | app/candidate/candidate_access.py:30-49 | filtering a score-sorted base keeps it sorted |
| Candidates.TopCandidatesKeepBaseOrder | app/candidate/candidate_access.py:24-53 | the second sort changes nothing: the result is a prefix of the qualifying base entries in base order |
| Candidates.TopCandidatesQualify | app/candidate/candidate_access.py:24-49 | every candidate comes from the base ranking, has liquidity and clears at least one floor |
| Candidates.TopOfFilterQualify | app/candidate/candidate_access.py:28-53 | the same for any base list |
| Candidates.ZeroFloorsKeepLiquid | app/candidate/candidate_access.py:40-41 | with zero floors, every liquid base entry qualifies |
| Announcements.ParseDirection | app/ai/ai_validator.py:14 | a direction label parses to the value whose label it is |
| Announcements.DirectionLabelRoundTrip | app/ai/ai_validator.py:14 | parsing the label of a direction gives the direction back |
| Announcements.ParseWindow | app/ai/ai_validator.py:15 | a reaction-window label parses to the value whose label it is |
| Announcements.ParseConfidence | app/ai/ai_validator.py:16 | a confidence label parses to the value whose label it is |
| Classifier.ClassifyAnnouncement | app/services/announcement_classifier.py:63-102 | never fails: the chain's result, or the neutral/low fallback carrying the error message |
| Classifier.ConfidenceLevel | app/services/announcement_classifier.py:148 | high is 3, medium is 2, and anything else (unknown or missing) is 1 |
| Classifier.MinLevel | app/services/announcement_classifier.py:121-122 | "low" is 1, "high" is 3, and any other threshold (medium or unknown) is 2 |
| Classifier.FilterProcessed | app/services/announcement_classifier.py:130-158 | each kept item is complete and passes the threshold and the non-neutral test (a null direction passes); it carries its own classification with the headline copied in |
| Classifier.FilterProcessedComplete | app/services/announcement_classifier.py:130-158 | every complete item whose classification passes both tests is kept, carrying that classification |
| Classifier.FilterProcessedKeepsSelected | app/services/announcement_classifier.py:130-158 | an input item is kept iff it is complete and its classification passes both tests |
| Classifier.Processed | app/services/announcement_classifier.py:130-137 | the items with symbol and headline are no more than the input |
| Classifier.FilterHighVolatilityAnnouncements | app/services/announcement_classifier.py:105-165 | the loop computes the filter; its ghost trace of `classify_announcement` calls equals `Processed` of the first `max_classifications` items, every call is on a complete input item, there are at most `max_classifications` calls, and the output is no longer than the trace |
| Classifier.ProcessedMembers | app/services/announcement_classifier.py:130-137 | every item the classifier is called on is an input item with a symbol and a headline |
| Classifier.FilterIsSubsequence | app/services/announcement_classifier.py:130-158 | the output is an order-preserving subsequence of the processed items |
| Classifier.OutageKeepsNothing | app/services/announcement_classifier.py:93-154 | when the LLM always fails, nothing is kept |
| Researcher.NotInUniverse | app/services/stock_researcher.py:44-82 | outside the universe: score 30, not trade-ready, the announced direction and no liquidity |
| Researcher.NoTechnicalData | app/services/stock_researcher.py:99-141 | without technicals: score 50 when the confidence key holds "high", else 30; not trade-ready; the announced direction and no liquidity |
| Researcher.TechnicalAttempts | app/services/stock_researcher.py:90-92 | attempt k is the score of the date k days before the announcement, for k = 0..5 |
| Researcher.TechnicalSearch | app/services/stock_researcher.py:90-97 | a hit records the date it was found on and how many days back |
| Researcher.TechnicalSearchFindsFirst | app/services/stock_researcher.py:90-97 | the search returns the first date that has technicals, and None iff no date has |
| Researcher.TechnicalSearchHit | app/services/stock_researcher.py:90-97 | a date with technicals ends the search there |
| Researcher.FindTechnicals | app/services/stock_researcher.py:86-97 | the search loop computes the date-fallback search |
| Researcher.LiquiditySearch | app/services/stock_researcher.py:144-152 | None iff every (date, 0.1) and (date, 0.2) attempt is None; a hit is for that symbol and one of the dates |
| Researcher.LiquiditySearchFindsFirst | app/services/stock_researcher.py:144-152 | the first date, in order, where either band finds a snapshot decides: band 0.1 if it finds one there, else band 0.2 |
| Researcher.LiquidityDates | app/services/stock_researcher.py:143-145 | the announcement date first; the technicals date second, exactly when it differs |
| Researcher.FindLiquidity | app/services/stock_researcher.py:144-152 | the liquidity loop computes the liquidity search |
| Researcher.FinalDirection | app/services/stock_researcher.py:173-181 | bullish iff announced bullish and technicals bullish or neutral; bearish likewise; a non-neutral result equals the announced direction, and a null announced direction gives neutral |
| Researcher.ConfidenceScore | app/services/stock_researcher.py:183-206 | the score lies in [50, 100]; agreement gives at least 70 and high confidence at least 65; 60 or more needs one of the bonuses |
| Researcher.ConfidenceCapReached | app/services/stock_researcher.py:184-206 | high confidence, bullish/bullish, spike 2.0 and return 0.05 give 100; no bonus gives 50 |
| Researcher.StrategyText | app/services/stock_researcher.py:248-280 | the wait text iff the final direction is neutral; otherwise the text starts with the trade of `TradeAction` followed by the window's timing in parentheses |
| Researcher.TradeAction | app/services/stock_researcher.py:271-278 | bullish: call options below 4% ATR, a bull call spread at or above; otherwise put options below 4%, a bear put spread at or above |
| Researcher.Timing | app/services/stock_researcher.py:264-269 | same_day is "immediate", next_day is "next trading session", anything else (a null included) is "within 1-3 days" |
| Researcher.Synthesise | app/services/stock_researcher.py:161-245 | the direction is `FinalDirection` of the announced and technical directions, the score is `ConfidenceScore` of them, the confidence (default low) and the spike and return, and the strategy is `StrategyText` for the window (default next_day) and ATR; trade-ready iff score ≥ 60 and liquidity has positive OI; the liquidity block and spot come from the liquidity found, or are zero/None without it; no note |
| Researcher.Research | app/services/stock_researcher.py:40-245 | succeeds iff the universe can be read; the result is for the upper-cased symbol and has a score in [30, 100] |
| Researcher.ResearchWithTechnicals | app/services/stock_researcher.py:84-245 | when the first date with technicals is `k` days back, the result is `Synthesise` of those technicals and of `LiquiditySearch` over the announcement date and that date |
| Researcher.SearchFindsFirstScored | app/services/stock_researcher.py:86-97 | with no score on the `k` latest dates and one `k` days back, the search returns that score, date and `k` |
| Researcher.ResearchStockWithAnnouncement | app/services/stock_researcher.py:40-245 | the method with its search loops and `+=` score computes the research result |
| Researcher.OutsideUniverseNotTradeReady | app/services/stock_researcher.py:44-82 | a symbol outside the universe scores 30 with the universe note and is never trade-ready |
| Researcher.NoTechnicalsScore | app/services/stock_researcher.py:99-141 | with no price row on any of the six dates: 50 or 30 by confidence, not trade-ready |
| Researcher.TradeReadyMeansLiquid | app/services/stock_researcher.py:237 | a trade-ready result has a score ≥ 60, positive OI, an expiry and a spot price |
| Researcher.CollectResearch | app/services/stock_researcher.py:297-314 | each result comes from one announcement, with a score in [30, 100]; no more results than announcements |
| Researcher.CollectResearchCount | app/services/stock_researcher.py:299-314 | no results when the universe cannot be read; otherwise one per announcement with a symbol and a date |
| Researcher.ResearchMultipleStocks | app/services/stock_researcher.py:283-322 | the loop and sort return the specified batch, sorted by non-increasing confidence and no longer than the input |
| Researcher.ResearchManyPermutes | app/services/stock_researcher.py:316-320 | the batch is a permutation of the per-announcement results |
| Workflow.Fail | app/services/announcement_workflow.py:95-101 | a failure appends exactly one message and sets step "error" |
| Workflow.RecentEvents | app/services/announcement_workflow.py:48-56 | an event is selected iff it is stored and dated within the two days before the target |
| Workflow.AsAnnouncement | app/services/announcement_workflow.py:58-67 | an announcement built from a row is unclassified and keeps the event date |
| Workflow.Scrape | app/services/announcement_workflow.py:34-101 | only announcements, errors and step change; "error" iff ingestion raised; otherwise the query result, newest first |
| Workflow.ScrapeAnnouncements | app/services/announcement_workflow.py:34-101 | the copy loop computes the scrape stage |
| Workflow.QueryEventsRecent | app/services/announcement_workflow.py:50-56 | the query returns each recent stored event as often as it is stored, newest first |
| Workflow.ScrapedAreRecent | app/services/announcement_workflow.py:48-67 | every scraped announcement is unclassified, dated within two days of the target, newest first |
| Workflow.ClassifierCalls | app/services/announcement_workflow.py:104-132 | no announcements means no LLM calls; never more than `max_classifications` and never more than the deduplicated items |
| Workflow.ClassifyStage | app/services/announcement_workflow.py:104-148 | only high_vol, errors and step change; no announcements gives [] and "classified" |
| Workflow.ClassifiedAreSelected | app/services/announcement_workflow.py:121-132 | when the post-dedup only drops items, every kept item is at least medium and non-neutral, with its headline copied in |
| Workflow.ResearchStage | app/services/announcement_workflow.py:151-226 | only research_results, errors and step change; no items gives [] and "completed"; results are sorted by confidence |
| Workflow.Initial | app/services/announcement_workflow.py:286-294 | the initial state has empty lists and no errors |
| Workflow.RunGraph | app/services/announcement_workflow.py:229-256 | the graph keeps the target date and earlier errors, and adds at most three messages |
| Workflow.ScrapeFailureStillCompletes | app/services/announcement_workflow.py:243-251 | a failed scrape still ends "completed", with the scraping message as the only error |
| Workflow.FinalStepIsResearchStep | app/services/announcement_workflow.py:243-251 | the run ends "completed", or "error" with at least one new error message |
| Workflow.TradeReadyOnly | app/services/announcement_workflow.py:302-305 | a result is a recommendation iff it is researched and trade-ready |
| Workflow.TradeReadyOnlyIsSubsequence | app/services/announcement_workflow.py:302-305 | recommendations keep the research order |
| Workflow.RunDailyPipeline | app/services/announcement_workflow.py:259-331 | the target defaults to today; a crash gives empty lists; summary counts equal the list lengths and trade_ready_count ≤ researched_count |
| Workflow.ReportCountsAndRecommendations | app/services/announcement_workflow.py:297-320 | trade_ready ≤ researched ≤ high-vol, at most three errors, and every recommendation has score ≥ 60 and positive OI |
| Workflow.ResearchManyFromResearch | app/services/announcement_workflow.py:177-185 | every trade-ready batch result has score ≥ 60 and positive OI |
| Scraper.IsHighVolatility | app/services/bse_scraper.py:106-124 | false when both fields are empty; otherwise true iff a keyword occurs in the lower-cased "category headline" |
| Scraper.WordSpans | app/services/bse_scraper.py:72 | the spans are exactly the maximal runs of word characters (`\w`), each one listed, disjoint and left to right |
| Scraper.Words | app/services/bse_scraper.py:72 | the k-th word is the text of the k-th maximal word-character run |
| Scraper.Tokens | app/services/bse_scraper.py:72 | the regex matches are the words made of 2 to 20 capital letters: a string is a token iff it is such a word, and the tokens keep the words' order |
| Scraper.MatchingConcat | app/services/bse_scraper.py:72 | the match list of a concatenation is the concatenation of the match lists, so the tokens are exactly the shaped words in order |
| Scraper.MatchingSingle | app/services/bse_scraper.py:72 | a single word is a match iff it has 2 to 20 capital letters |
| Scraper.FirstSymbol | app/services/bse_scraper.py:75-81 | the first accepted token, or None iff none is accepted |
| Scraper.ShapedAccepted | app/services/bse_scraper.py:76-78 | on a capital-letter token, the loop's test is only the common-word test |
| Scraper.FirstSymbolOfShaped | app/services/bse_scraper.py:75-81 | on capital-letter tokens the loop returns the first token that is not a common word (every earlier one is), and returns None iff every token is common |
| Scraper.ExtractSymbol | app/services/bse_scraper.py:64-81 | the first token of the upper-cased text that is not a common word (every earlier token is one), or None iff every token is common |
| Scraper.CompanySymbol | app/services/bse_scraper.py:473-478 | a symbol iff the upper-cased first word with '.' and ',' trimmed is alphanumeric and 2 to 20 long, and then it is that word |
| Scraper.SymbolOf | app/services/bse_scraper.py:471-481 | the company symbol, else the headline extraction |
| Scraper.TryFormats | app/services/bse_scraper.py:43-47 | None iff no format parses |
| Scraper.TryFormatsFirst | app/services/bse_scraper.py:43-47 | a date found is the one the first accepting format gives; every earlier format fails |
| Scraper.ParseDate | app/services/bse_scraper.py:25-61 | empty input gives None; otherwise the stripped text's date from the first of the six formats that accepts it, and the '/' fallback only when none does |
| Scraper.ParseDateFallback | app/services/bse_scraper.py:49-56 | when none of the six formats matches the text, "d/m/y" in digits gives date(y, m, d) |
| Scraper.SlashDateDigits | app/services/bse_scraper.py:50-56 | the '/' fallback on digit parts is date(y, m, d) |
| Scraper.EventDate | app/services/bse_scraper.py:457-469 | an absent, empty or zero news date leaves the scrape date |
| Scraper.NormaliseRow | app/services/bse_scraper.py:447-493 | a record is kept iff the stripped headline has at least 10 chars and there is a symbol or a scrip code |
| Scraper.NormalisedHeadline | app/services/bse_scraper.py:449-487 | a kept headline is the stripped headline cut to 500 chars, and at least 10 long |
| Scraper.Volatile | app/services/bse_scraper.py:511-519 | an item is kept iff it passes the volatility test |
| Scraper.VolatileIsSubsequence | app/services/bse_scraper.py:511-519 | the kept items keep their order |
| Scraper.KeepHighVolatility | app/services/bse_scraper.py:507-525 | with filtering on, the volatile items and filtered_count = total − kept; with it off, everything |
| Scraper.ToEvent | app/services/bse_scraper.py:647-658 | an event carries the item's content key and source "BSE" |
| Scraper.Deduped | app/services/bse_scraper.py:621-660 | no more events than items |
| Scraper.DedupByContent | app/services/bse_scraper.py:621-660 | the dictionary loop computes the dedup |
| Scraper.DedupKeysDistinct | app/services/bse_scraper.py:639-645 | no two kept events share a content hash |
| Scraper.DedupFirstWins | app/services/bse_scraper.py:623-660 | every usable item's hash is kept, and the first usable item with a hash is the one kept |
| Scraper.DedupSources | app/services/bse_scraper.py:623-660 | every kept event is built from a usable item |
| Scraper.DedupKeepsOrder | app/services/bse_scraper.py:623-660 | the kept events are an order-preserving subsequence of the events built from the items |
| Scraper.NotStored | app/services/bse_scraper.py:666-682 | an event survives iff its hash is not stored |
| Scraper.NotStoredIsSubsequence | app/services/bse_scraper.py:679-682 | survivors keep first-seen order |
| Cells.Str | scripts/ingest_fno_db.py:29 | `str(x)` of a text cell is its text |
| Cells.StripCell | scripts/ingest_fno_db.py:66 | stripping keeps a missing cell missing |
| Cells.FloatCell | scripts/ingest_equity_db.py:68-72 | `float(x)` of NaN is NaN; of text it raises iff the text does not parse, and otherwise gives the parsed value |
| Cells.ToFloatOrNone | scripts/ingest_fno_db.py:47-56 | None for missing or blank input; for other text, exactly the parse of the stripped text (None where `float` raises) |
| Cells.ToFloatOrNoneIgnoresPadding | scripts/ingest_fno_db.py:50 | padding spaces do not change the value |
| Store.FirstSeen | scripts/ingest_equity_db.py:57-66 | a symbol is staged iff it occurs and is not stored |
| Store.FirstSeenDistinct | scripts/ingest_equity_db.py:58-66 | no symbol is staged twice |
| Store.FirstSeenAllKnown | scripts/ingest_equity_db.py:58 | nothing is staged when every symbol is stored |
| Store.StagingFirstSeenKeepsUnique | scripts/ingest_equity_db.py:57-66 | staging each first-seen symbol once keeps `stocks.symbol` unique |
| Store.NewStocks | scripts/ingest_equity_db.py:59-64 | one `Stock(symbol, None, segment)` per symbol |
| Store.Session.constructor | app/db/sessions.py:18-22 | a new session has nothing pending |
| Store.Session.AddStock | scripts/ingest_equity_db.py:64 | `add` stages the stock and changes nothing else |
| Store.Session.AddPrice | scripts/ingest_equity_db.py:92 | `add` stages the price and changes nothing else |
| Store.Session.AddOption | scripts/ingest_fno_db.py:185 | `add` stages the contract and changes nothing else |
| Store.Session.AddEvent | scripts/bse_ingest.py:78 | `add` stages the event and changes nothing else |
| Store.Session.Commit | app/db/models.py:31 | commit succeeds iff the unique constraints hold; then the staged rows are appended, else nothing changes |
| Store.Session.Rollback | scripts/ingest_equity_db.py:99 | rollback drops the staged rows and keeps the committed ones |
| NseIngest.ClassifyEvent | scripts/bse_ingest.py:22-28 | "results" iff a results keyword occurs; "order" iff none does and an order keyword does; else None |
| NseIngest.NewEvents | scripts/bse_ingest.py:49-79 | no more events than rows |
| NseIngest.NewEventsShape | scripts/bse_ingest.py:49-79 | each event comes from a complete, classified feed row whose (symbol, headline) is not stored; it is dated today, with source "nse" |
| NseIngest.NewEventsComplete | scripts/bse_ingest.py:53-79 | every relevant row not stored is staged |
| NseIngest.NothingNew | scripts/bse_ingest.py:60-68 | nothing is staged when every relevant row is stored |
| NseIngest.ReingestStagesNothing | scripts/bse_ingest.py:60-68 | after a successful commit, the same feed stages nothing |
| NseIngest.StageEvent | scripts/bse_ingest.py:49-79 | stages a row's event exactly when the row is relevant and its (symbol, headline) is not committed; nothing else changes |
| NseIngest.IngestEvents | scripts/bse_ingest.py:31-85 | returns the number of new events; on a fresh session the commit (made only when that number is positive) succeeds, so the events table gains exactly those events in feed order and no other table changes |
| FnoIngest.StockOptionRows | scripts/ingest_fno_db.py:98 | a row is kept iff its instrument is OPTSTK |
| FnoIngest.ParseExpiry | scripts/ingest_fno_db.py:25-32 | succeeds iff the stripped text has 8 characters and parses as DDMMYYYY |
| FnoIngest.MissingExpiryRejected | scripts/ingest_fno_db.py:29-31 | a missing expiry prints as "nan" and raises |
| FnoIngest.FirstPresent | scripts/ingest_fno_db.py:109 | the first non-missing cell, or None iff all are missing |
| FnoIngest.TradeDate | scripts/ingest_fno_db.py:105-110 | the ISO argument if given; without one, an all-missing column raises |
| FnoIngest.LatestPrice | scripts/ingest_fno_db.py:123-132 | the value of the last convertible price column, or None iff there is none |
| FnoIngest.PickLtp | scripts/ingest_fno_db.py:123-132 | the scan from price_5 down to price_1 returns that value |
| FnoIngest.Convert | scripts/ingest_fno_db.py:113-140 | each contract has the row's underlying, the parsed 8-char expiry, `float` of strike and OI, the picked LTP, the upper-cased type and the lenient volume; it raises iff some row's expiry, strike or OI does not convert |
| FnoIngest.Prepare | scripts/ingest_fno_db.py:59-140 | fewer than 22 columns raise; no OPTSTK rows means nothing to do; otherwise the converted batch |
| FnoIngest.AutoAdded | scripts/ingest_fno_db.py:146-148 | as written, at most one staged stock per contract |
| FnoIngest.NewContracts | scripts/ingest_fno_db.py:161-186 | at most one staged row per contract |
| FnoIngest.AutoAddStockIfMissing | scripts/ingest_fno_db.py:35-44 | returns strip+upper and stages a stock iff none is committed under it |
| FnoIngest.StagingStep | scripts/ingest_fno_db.py:146-186 | one more contract appends its stock and its row, unless they are stored |
| FnoIngest.StageContract | scripts/ingest_fno_db.py:146-186 | one iteration stages the stock and the row unless they are committed; `inserted` is set iff the row is new |
| FnoIngest.StageContracts | scripts/ingest_fno_db.py:146-186 | the loop stages exactly the specified stocks and rows, and counts the rows |
| FnoIngest.IngestFnoFile | scripts/ingest_fno_db.py:59-193 | a preparation error raises and no OPTSTK row does nothing; otherwise it commits iff the staged stocks keep symbols unique, appending the stocks and the rows, else rolls back |
| FnoIngest.AutoAddedPrefix | scripts/ingest_fno_db.py:146-148 | staging more contracts only appends stocks |
| FnoIngest.StagedTwice | scripts/ingest_fno_db.py:35-44 | two contracts of one new underlying stage it at two positions |
| FnoIngest.RepeatedNewUnderlyingBreaksCommit | scripts/ingest_fno_db.py:41-43 | as written, two contracts of one new underlying break `stocks.symbol` uniqueness, so the file rolls back |
| FnoIngest.TwoStrikesOfNewUnderlyingRollBack | scripts/ingest_fno_db.py:41-43 | ABB 4100 CE and 4200 CE on an empty database break uniqueness |
| FnoIngest.AutoAddedOnce | scripts/ingest_fno_db.py:35-44 | corrected: staged stocks are new, with segment "FNO" |
| FnoIngest.AutoAddedOnceCommits | scripts/ingest_fno_db.py:35-44 | corrected: uniqueness holds, and every contract's symbol is a stock after commit |
| FnoIngest.AutoAddStockOnce | scripts/ingest_fno_db.py:35-44 | corrected: the symbol is normalised and staged iff it is neither committed nor staged earlier in the run |
| FnoIngest.StageContractsOnce | scripts/ingest_fno_db.py:146-186 | corrected loop: stages exactly the first-seen new underlyings and the same rows as the original loop |
| FnoIngest.IngestFnoFileCorrected | scripts/ingest_fno_db.py:59-193 | corrected run: with something to insert it always commits, appending those stocks and rows, and every underlying of the file is a stock afterwards |
| FnoIngest.NewContractsComplete | scripts/ingest_fno_db.py:161-186 | every contract whose key is not stored is staged |
| FnoIngest.NoNewContracts | scripts/ingest_fno_db.py:161-173 | nothing is staged when every key is stored |
| FnoIngest.ReingestStagesNoContract | scripts/ingest_fno_db.py:161-186 | after a commit, the same batch stages no contract |
| EquityIngest.NormaliseColumn | scripts/ingest_equity_db.py:23 | a normalised name has the stripped length, no space and no lower-case letter |
| EquityIngest.Columns | scripts/ingest_equity_db.py:23 | one normalised name per header |
| EquityIngest.Absent | scripts/ingest_equity_db.py:25-35 | a name is missing iff it is required and not a column |
| EquityIngest.Column | scripts/ingest_equity_db.py:38 | the first column with that name, past the end iff there is none |
| EquityIngest.KeptRows | scripts/ingest_equity_db.py:39-41 | without a SERIES column, every row is kept |
| EquityIngest.KeptRowsSound | scripts/ingest_equity_db.py:39-41 | every kept row comes from a file row whose SERIES is "EQ" (or that has no SERIES column) |
| EquityIngest.KeptRowsComplete | scripts/ingest_equity_db.py:39-41 | every file row whose SERIES is "EQ" (or that has no SERIES column) is kept |
| EquityIngest.Table | scripts/ingest_equity_db.py:20-41 | raises iff a required column is missing |
| EquityIngest.PriceOf | scripts/ingest_equity_db.py:68-91 | the price row has the row's symbol and the trade date |
| EquityIngest.PriceOfConverts | scripts/ingest_equity_db.py:68-91 | a row converts iff all five cells do, and carries the five values in order |
| EquityIngest.PricesOf | scripts/ingest_equity_db.py:54-72 | a successful conversion has one price per row |
| EquityIngest.PricesOfAt | scripts/ingest_equity_db.py:68-91 | the i-th price is the conversion of the i-th row |
| EquityIngest.PricesOfFails | scripts/ingest_equity_db.py:68-72 | one unconvertible row makes the run raise |
| EquityIngest.NewPrices | scripts/ingest_equity_db.py:74-93 | no more staged prices than rows |
| EquityIngest.Plan | scripts/ingest_equity_db.py:15-93 | a bad date or a missing column raises; staged stocks are new, with segment "EQ" |
| EquityIngest.StageStep | scripts/ingest_equity_db.py:54-93 | one more row appends its new stock and its unstored price |
| EquityIngest.StageStock | scripts/ingest_equity_db.py:57-66 | a first-seen symbol is staged once and added to `existing_symbols` |
| EquityIngest.StagePrice | scripts/ingest_equity_db.py:68-93 | a row converts or raises; a converted row is staged unless its (symbol, date) is stored |
| EquityIngest.StageRows | scripts/ingest_equity_db.py:54-93 | the loop stages exactly the specified stocks and prices, and the counters are their numbers; it fails iff a row does not convert |
| EquityIngest.IngestBhavcopy | scripts/ingest_equity_db.py:15-103 | ingested iff the plan succeeds and its prices keep (symbol, date) unique; then the stocks and prices are appended, else nothing changes |
| EquityIngest.StagedStocksAreNewAndDistinct | scripts/ingest_equity_db.py:57-66 | a symbol is staged iff it is in the file and not stored, and staging keeps `stocks.symbol` unique |
| EquityIngest.NewPricesComplete | scripts/ingest_equity_db.py:74-93 | every price whose key is not stored is staged |
| EquityIngest.NoNewPrices | scripts/ingest_equity_db.py:74-81 | nothing is staged when every key is stored |
| EquityIngest.NewPricesKeepsBoth | scripts/ingest_equity_db.py:74-93 | two unstored prices are both staged, in order |
| EquityIngest.RepeatedSymbolBreaksCommit | scripts/ingest_equity_db.py:75-95 | a symbol on two kept rows with no stored price is staged twice, and the commit fails |
| EquityIngest.StocksCovered | scripts/ingest_equity_db.py:57-66 | after the commit, every symbol of the file is a stock |
| EquityIngest.PricesCovered | scripts/ingest_equity_db.py:74-93 | after the commit, every price key of the file is stored |
| EquityIngest.ReingestStagesNothing | scripts/ingest_equity_db.py:54-95 | after a successful commit, loading the same file for the same date stages nothing |

## Left out

- The browser and the HTTP feeds (app/services/bse_scraper.py:141-555, the NSE request at scripts/bse_ingest.py:34-46): the model starts from the decoded page rows and JSON rows.
- The lookback scrape loop, the batch commit with its retries, and the rollback in `ingest_bse_announcements` (app/services/bse_scraper.py:609-616, 688-736): the model stops at the events handed to the database (`Scraper.EventsToInsert`).
- LLM prompts and chains: the LLM is a function parameter that returns a classification or fails.
- `classify_direction_and_strategy`, `deduplicate_announcements_by_symbol` and its pre-classification variant, and `BSEEvent` are not part of this model: they are parameters or plain records without invented contracts.
- `datetime.strptime`, `fromisoformat`, `fromtimestamp`, `float()` and MD5 are opaque parameters. MD5 is taken to be injective, so the content key stands for the hash.
- `date.today()` and `datetime.now()` are parameters; `published_at` is not represented.
- Floating point: prices and scores are reals. NaN is `None`, and a NaN stored into `daily_prices` is represented as a missing value. Infinities from a zero close or a zero volume mean are excluded by `Signals.WellFormed`.
- Text is ASCII: case mapping, `isspace`, `isalnum` and the regex `\w` ignore other characters.
- Foreign keys (`daily_prices.symbol`, `option_chain.symbol` → `stocks.symbol`) are not checked at commit; only the unique constraints are.
- Signals.WellFormed: `daily_prices.volume` is nullable and any column can hold NaN, but the model's rows carry a volume and a close, with a positive close and a non-negative volume; rows with a missing or NaN volume or close, or a non-positive close, are excluded, so pandas' skipping of NaN in the rolling means is not modelled.
- Signals.ScoreAllSymbolsForDate: the symbols are a parameter in the order the `stocks` query returns them; the database's order is not modelled.
- EquityIngest.Column: a header that normalises to the same name twice is read from its first column, whereas pandas would return both.
- EquityIngest.RowOf: a row longer than the header is not modelled, and a short row reads as NaN.
- FnoIngest.Convert: a NaN strike is `None` and compares equal to another `None`; whether the database's `strike = NaN` lookup matches a stored NaN depends on the backend (PostgreSQL treats NaN as equal to NaN; other backends may not), and the model takes the matching reading; an integer-typed expiry that lost a leading zero is covered only through its printed text.
- Workflow.ClassifierCalls: the count is taken from the pure stage as the length of `Processed` of the first `max_classifications` deduplicated items; the call trace that `Classifier.FilterHighVolatilityAnnouncements` records is proved equal to that.
- Researcher.Research: the 10-day price history it loads for context is not used in the result, so it is not modelled.
- The scrape stage's `unique_symbols` set only feeds a log line and is not modelled; logging and printing are left out throughout.
- Aliasing: the classifier and the candidate ranker mutate the input dictionaries in place. The model builds new records instead.
- CLIs, routers, schemas other than the label enumerations, and configuration are outside the core.

## Findings

| source | as written | input that shows it | evidently intended | confidence | as-written member | corrected member |
|---|---|---|---|---|---|---|
| scripts/ingest_fno_db.py:35-44 | `auto_add_stock_if_missing` queries `stocks` through a session with autoflush off, so it does not see a stock it staged earlier in the run. A new underlying is staged once per contract. | a file with two OPTSTK rows of underlying ABB (strikes 4100 and 4200), on a database without ABB: two `Stock("ABB")` rows are staged, the commit breaks `stocks.symbol` uniqueness, and the whole file is rolled back | each new underlying is added once, as scripts/ingest_equity_db.py does with `existing_symbols` | not executed | FnoIngest.RepeatedNewUnderlyingBreaksCommit | FnoIngest.IngestFnoFileCorrected |
