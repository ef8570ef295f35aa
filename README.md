# Market-data service core, modelled in Dafny

This project models the core of a small market-data service, FinancialDataGenAIApi. The service pulls closing prices for a list of symbols, computes three metrics per symbol and stores them in a two-table database. It then serves the metrics over a handful of read endpoints:

- per symbol;
- two symbols compared;
- every asset listed;
- a joined summary that feeds a text generator.

It can also clear both tables.

The model works on an abstract in-memory store: `Models.Db` is the value of both tables and `Models.Store` is the mutable database the services share. The pieces are:

- **Models** (`models.dfy`)
  - The `Asset` and `Metric` rows.
  - The constraints the schema declares: primary keys, the unique symbol, the foreign key from a metric to its asset.
  - The rule that an asset has at most one metric row. The ingestion keeps this rule; the schema does not enforce it.
  - The lookups the queries perform.
  - `Session`, the database as a read endpoint sees it: it either answers from a `Db` or raises on every query.
- **Api** (`api.dfy`)
  - An endpoint's result: a value, an `HTTPException` (status and detail), or any other exception.
  - The `except HTTPException: raise` / `except Exception: 500` mapping.
  - `scalar_one_or_none`.
  - The shared metric dictionary.
- **PriceMetrics** (`price_metrics.dfy`): the arithmetic inside `fetch_asset_data`.
  - The latest close.
  - The percentage change against the previous close.
  - The mean of the last seven closes.
  - Both derived values rounded to two decimals, ties to even.
- **Ingestion** (`ingestion.dfy`)
  - The date window.
  - The two find-or-create upserts. Each has a pure specification on `Db` and an imperative method on `Store`.
  - The batch: every symbol in order, with three persistence attempts each. It is a `while` loop on a `retries` counter, proved against a recursive specification.
- **ClearDb**: `clear_table_data`, `clear_all_data` and `clear_db` as methods on `Store`. Metrics are cleared first, then assets, each step committed on its own.
- **Compare**: `compare_assets`. A loop fills a dictionary with the two symbols' metrics, proved against a functional specification.
- **MetricsApi**: the single-symbol metrics endpoint.
- **Summary**: the inner join of assets with metric rows, its projection, and `get_summary`.
- **Assets**: `format_asset` and `list_assets`.
- **GenAi**: `format_asset_summary`, the prompt text. It is one sentence per record, joined by single spaces.

External inputs are parameters:

- **The price feed.** `Ingestion.Feed` maps each symbol to its closes in date order. A symbol missing from the map is one whose provider request raised.
- **What a fetch answers.** The batch is stated over `Ingestion.Fetch`, the answer of `fetch_asset_data` for each symbol. `Ingestion.FeedFetch(feed)` is that function for the price feed; the lemmas about closes use it.
- **Persistence failures.** A function `fault(symbol, attempt)` says whether that attempt raises, and where: in `upsert_asset`, or in `upsert_metric` after the asset was committed.
- **Clearing failures.** The set of clear steps that raise.
- **The text generator.** A function from the joined rows to `Option<string>`; `None` is its `ValueError`.
- **Number formatting.** A function `show: real -> string` renders a number in the prompt text.
- **The clock.** "now" is a day number.

The seven-day average takes the last seven closes (`iloc[-7:]`). For the fifteen closes of the ingestion test these are 48000 through 47000, which sum to 341500.

## Model

| member | source | states |
|---|---|---|
| Models.FindAssetBySymbol | app/services/ingestion.py:68-69 | the asset found carries the symbol and is stored; nothing is found exactly when no stored asset carries the symbol |
| Models.AssetsWithSymbol | app/api/compare.py:23 | the rows of the symbol query are exactly the stored assets carrying that symbol |
| Models.FindMetricIndex | app/services/ingestion.py:89-92 | the position found holds the first metric row of the asset; none is found exactly when no row points at the asset |
| Models.FindMetric | app/services/ingestion.py:89-90 | the first metric row of the asset: it is stored and points at the asset, and none is found exactly when no row points at it; where at most one row does, this is what `scalar_one_or_none` returns |
| Models.MetricsOf | app/core/models.py:22 | the `Asset.metrics` list holds exactly the stored metric rows pointing at the asset |
| Models.FindAssetUnique | app/core/models.py:17 | with unique symbols, looking up a stored asset's symbol finds that asset |
| Models.AssetsWithSymbolUnique | app/core/models.py:17 | with unique symbols the symbol query returns no row or exactly the asset the lookup finds |
| Models.AssetsWithSymbolNone | app/api/compare.py:23-24 | a symbol that no asset carries selects no row |
| Models.StoredMetric | app/core/models.py:29 | the stored metric of a symbol is a stored row whose `asset_id` is the key of the asset carrying the symbol |
| Models.MetricsOfNone | app/core/models.py:22 | an asset that no metric row points at has an empty relationship list |
| Models.MetricsOfUnique | app/core/models.py:22 | where no two rows point at an asset, its relationship list has at most one row |
| Models.MetricsOfTwo | app/core/models.py:22 | two metric rows of one asset give a relationship list of at least two |
| Models.MetricsOfAtMostOne | app/core/models.py:22 | with at most one metric per asset, the relationship list is empty or exactly the row the lookup finds |
| Models.FindMetricUnique | app/services/ingestion.py:89-90 | with at most one metric per asset, the lookup for a row's asset finds that row |
| Models.SchemaAllowsSeveralMetricsPerAsset | app/core/models.py:22 | some database keeps every schema constraint and still has an asset with two metric rows: the relation is one-to-many |
| Models.Store.constructor | app/core/models.py:13-36 | the tables start empty and satisfy every constraint |
| Api.Propagate | app/api/compare.py:67-68 | an exception raised by a lookup reaches the endpoint unchanged, HTTP or not |
| Api.HandleErrors | app/api/compare.py:77-81 | an HTTP error passes through unchanged; any other exception becomes 500 "Internal Server Error"; nothing else escapes |
| Api.ScalarOneOrNone | app/api/compare.py:24 | no rows give nothing, one row gives that row, and more than one raises |
| Api.QueryAsset | app/api/compare.py:23-24 | a broken session raises; an asset it returns is stored and carries the symbol; it never raises an HTTP error |
| Api.QueryMetric | app/api/compare.py:35-36 | a broken session raises; a metric it returns is stored and points at the asset; it never raises an HTTP error |
| Api.QueryAssetUnknown | app/api/compare.py:23-24 | on an open session, a symbol that no asset carries gives no row and no error, on any store |
| Api.QueryAssetOnSchema | app/core/models.py:17 | because symbols are unique, the asset query never raises on an open session and finds what the lookup finds |
| Api.QueryMetricOnValid | app/api/compare.py:35-36 | with at most one metric per asset, the metric query never raises and finds what the lookup finds |
| Api.QueryMetricRaisesOnDuplicates | app/api/compare.py:36 | two metric rows for one asset make `scalar_one_or_none` raise |
| Api.QueryMetricRaisesIffDuplicated | app/api/compare.py:35-36 | the metric query raises exactly when two rows point at the asset, the condition under which `upsert_metric`'s lookup raises |
| Api.FormatMetric | app/api/compare.py:45-51 | `format_metric`; `FormatMetricKeepsExactlyTheValues` states that it keeps exactly the three values |
| Api.FormatMetricKeepsExactlyTheValues | app/api/compare.py:45-51 | two rows format alike exactly when their three values agree, whatever their keys and timestamps (`format_metric` of app/api/assets.py:23-29 is the same dictionary) |
| PriceMetrics.Round2 | app/services/ingestion.py:49-50 | rounding moves a value by at most half a hundredth |
| PriceMetrics.Round2Idempotent | app/services/ingestion.py:49-50 | rounding an already rounded value changes nothing |
| PriceMetrics.Round2Hundredths | app/services/ingestion.py:49-50 | the rounded value is a whole number of hundredths, and an exact tie goes to the even one |
| PriceMetrics.Round2Nearest | app/services/ingestion.py:49-50 | no whole number of hundredths is nearer to the value than its rounding |
| PriceMetrics.Mean | app/services/ingestion.py:44 | `.mean()`; `MeanBetweenMinAndMax` bounds it by the values averaged, and `AverageWithinRecentRange` ties it to the reported average |
| PriceMetrics.MeanBetweenMinAndMax | app/services/ingestion.py:44 | a mean lies between the smallest and the largest value averaged |
| PriceMetrics.LastPrices | app/services/ingestion.py:44 | the averaged window is exactly the last `min(7, n)` closes |
| PriceMetrics.RelativeChange | app/services/ingestion.py:43 | the unrounded change; `ChangeIsRelativeDifference` states that the reported change is its rounding, and `TestPricesMetrics` evaluates it on the test's closes |
| PriceMetrics.ComputeMetrics | app/services/ingestion.py:38-54 | no result exactly when there are fewer than two closes; otherwise the symbol is the input symbol and the latest price is the last close, unrounded |
| PriceMetrics.ChangeIsRelativeDifference | app/services/ingestion.py:43-49 | the reported change is `Round2` of `(last - prev) / prev * 100` of the last two closes, and so within half a hundredth of it |
| PriceMetrics.AverageWithinRecentRange | app/services/ingestion.py:44-50 | the reported average is `Round2` of the mean of the last `min(7, n)` closes, and so lies between their smallest and largest up to the rounding |
| PriceMetrics.OnlyRecentPricesMatter | app/services/ingestion.py:42-44 | closes older than the last seven change none of the three values |
| PriceMetrics.ShortSeriesAveragesEverything | app/services/ingestion.py:44 | with seven closes or fewer the average is over all of them |
| PriceMetrics.TestPricesMetrics | tests/test_ingestion.py:10-23 | on the test's fifteen closes: latest 47000; change `-1000/48000*100`, which rounds to -2.08; average `341500/7`, which rounds to 48785.71 |
| Ingestion.DateRange | app/services/ingestion.py:18-19 | the window ends the day after "now" and starts exactly `days_back` days before its end |
| Ingestion.FetchWindow | app/services/ingestion.py:14-20 | with the default look-back of 15 days, the window a fetch asks for runs from 14 days before "now" up to the day after it |
| Ingestion.FetchAssetData | app/services/ingestion.py:23-54 | "no data" exactly when the provider raised or returned fewer than two closes; otherwise the symbol and the last close |
| Ingestion.UpsertAssetDb | app/services/ingestion.py:57-77 | the asset returned carries the symbol and is stored afterwards; the metric table and its key counter are untouched |
| Ingestion.UpsertAssetExisting | app/services/ingestion.py:68-77 | an existing symbol returns its stored asset and changes nothing |
| Ingestion.UpsertAssetNew | app/services/ingestion.py:71-75 | a new symbol appends exactly one asset, under the next key, with the name equal to the symbol; the key counter advances by one |
| Ingestion.UpsertAssetIdempotent | app/services/ingestion.py:68-77 | upserting a symbol twice has the effect and result of upserting it once |
| Ingestion.UpsertAssetPreservesValid | app/services/ingestion.py:71-74 | the upsert keeps every schema constraint and the one-metric rule |
| Ingestion.UpsertAssetFindable | app/services/ingestion.py:68-77 | afterwards the symbol's lookup finds exactly the asset returned |
| Ingestion.UpsertMetricDb | app/services/ingestion.py:80-107 | defined where the lookup returns (no two rows point at the asset); the asset table and its key counter are untouched |
| Ingestion.UpsertMetricUpdatesInPlace | app/services/ingestion.py:92-96 | an existing row keeps its position, key, asset and timestamp and takes the three new values; no row is added and no other row changes |
| Ingestion.UpsertMetricInserts | app/services/ingestion.py:97-105 | an asset without a metric gets exactly one appended row under the next key, and the key counter advances by one |
| Ingestion.UpsertMetricReadBack | app/services/ingestion.py:89-107 | where the lookup returns, the asset's metric lookup afterwards finds a row carrying the new values |
| Ingestion.UpsertMetricPreservesValid | app/services/ingestion.py:89-107 | for a stored asset the upsert keeps every schema constraint and at most one metric per asset |
| Ingestion.UpsertTwiceKeepsLatest | app/services/ingestion.py:89-107 | on a valid store, ingesting one symbol twice finds the same asset, the second lookup does not raise, and one metric row for the asset holds the second values |
| Ingestion.Attempts | app/services/ingestion.py:119-136 | attempts `k` onward; `AttemptsOutcome`, `AttemptsPreserveValid`, `AttemptsDoneStores` and `AttemptStep` state how they end, that they keep the constraints, and what they store |
| Ingestion.IngestSymbol | app/services/ingestion.py:119-136 | one symbol's loop; `RetrySymbol` is proved equal to it, and `NoDataLeavesStoreUnchanged`, `DoneSymbolIsStored`, `MetricFailureLeavesAssetWithoutMetric` and `DuplicateMetricRowsFailEveryAttempt` state how it ends |
| Ingestion.IngestAll | app/services/ingestion.py:118-136 | the batch reports exactly one outcome per symbol |
| Ingestion.RetryOutcomeCharacterised | app/services/ingestion.py:119-136 | a symbol fails exactly when all three attempts raise; success after n attempts means 1 <= n <= 3, attempt n succeeded and every earlier one raised |
| Ingestion.AttemptsOutcome | app/services/ingestion.py:119-136 | on a store that keeps the one-metric rule, how the attempts end depends only on the faults |
| Ingestion.IngestVisitsEverySymbol | app/services/ingestion.py:118-136 | from a valid store, the i-th outcome is the one that the i-th symbol's own data and faults determine, whatever happened to earlier symbols |
| Ingestion.IngestDefaultSymbols | app/services/ingestion.py:110-136 | from a valid store and without a symbol list, the batch runs BTC-USD, ETH-USD and TSLA in that order, each with its own outcome |
| Ingestion.NoDataLeavesStoreUnchanged | app/services/ingestion.py:122-125 | a symbol without data is skipped on the first fetch, is never retried, and leaves the store unchanged |
| Ingestion.AttemptsPreserveValid | app/services/ingestion.py:127-128 | every attempt, failed or not, keeps the constraints |
| Ingestion.IngestPreservesValid | app/services/ingestion.py:118-136 | the whole batch keeps the constraints |
| Ingestion.Attempt | app/services/ingestion.py:89-132 | one pass through the `try` block persists exactly when no fault is injected and `upsert_metric`'s lookup does not raise on two rows for the asset; on a store with at most one metric per asset, exactly when no fault is injected |
| Ingestion.AttemptsDoneStores | app/services/ingestion.py:127-130 | after a successful attempt the symbol's asset exists and its metric row carries the data |
| Ingestion.DoneSymbolIsStored | app/services/ingestion.py:127-130 | a symbol that succeeded has its asset stored, and that asset's metric row holds the values fetched for it |
| Ingestion.MetricFailureLeavesAssetWithoutMetric | app/services/ingestion.py:127-132 | when `upsert_metric` raises every time, a new symbol fails but its asset remains committed without a metric |
| Ingestion.MetricFaultsKeepFailing | app/services/ingestion.py:127-132 | once the asset is stored, attempts whose metric upsert always raises change nothing and end in failure |
| Ingestion.DuplicateMetricRowsFailEveryAttempt | app/services/ingestion.py:89-136 | where two metric rows point at the symbol's stored asset, every attempt raises in `upsert_metric`: the loop gives up and the store is unchanged, whatever the injected faults |
| Ingestion.AttemptStep | app/services/ingestion.py:120-132 | one turn of the retry loop: an asset fault changes nothing, a metric fault keeps the asset, and no fault stores both and ends the loop unless the metric lookup raises on duplicate rows |
| Ingestion.UpsertAsset | app/services/ingestion.py:57-77 | the store and the asset returned are those `UpsertAssetDb` gives; the constraints are kept |
| Ingestion.UpsertMetric | app/services/ingestion.py:80-107 | the store afterwards is the one `UpsertMetricDb` gives; the constraints are kept |
| Ingestion.PersistOnce | app/services/ingestion.py:127-131 | the store and the result afterwards are exactly those `Attempt` gives for the fault; the constraints are kept |
| Ingestion.RetrySymbol | app/services/ingestion.py:119-136 | the `retries` loop of one symbol, fetching on every turn, leaves the store and the outcome that `IngestSymbol` gives; the constraints are kept |
| Ingestion.IngestData | app/services/ingestion.py:110-136 | the batch leaves the store and the outcomes that `IngestAll` gives, and keeps the constraints |
| Compare.GetAssetBySymbol | app/api/compare.py:21-30 | a found asset is stored and carries the symbol; a missing one is 404 "Asset {symbol} not found" |
| Compare.GetMetricByAssetId | app/api/compare.py:33-42 | a found metric points at the asset; a missing one is 404 "Metrics not available for {symbol}" |
| Compare.CompareAssets | app/api/compare.py:54-81 | filling the dictionary symbol by symbol answers exactly what `Compared` specifies |
| Compare.SymbolMetric | app/api/compare.py:66-69 | one symbol's turn; `SymbolMetricFindsStored` and `SymbolMetricReportsMissing` state when it succeeds and what it reports |
| Compare.SymbolMetricFindsStored | app/api/compare.py:67-69 | on a valid store a symbol's turn succeeds exactly when it has a stored metric, and then yields that metric's values |
| Compare.SymbolMetricReportsMissing | app/api/compare.py:21-42 | on a valid store a failed turn reports the missing asset or the missing metric |
| Compare.Compared | app/api/compare.py:55-81 | the endpoint's answer; `CompareAssets` is proved equal to it, and `CompareSucceedsIffBothStored`, `CompareChecksFirstSymbolFirst`, `CompareSecondSymbolUnknown` and `CompareErrorsAreMapped` state its successes and errors |
| Compare.CompareSucceedsIffBothStored | app/api/compare.py:64-75 | success exactly when both symbols have a stored metric; each key then holds exactly that metric's three values |
| Compare.CompareChecksFirstSymbolFirst | app/api/compare.py:66-69 | an unknown first symbol is the 404 naming it, whatever the second is, on any store |
| Compare.CompareMissingMetric | app/api/compare.py:33-42 | a stored asset without a metric is 404 naming its symbol |
| Compare.CompareSecondSymbolUnknown | app/api/compare.py:66-69 | once the first symbol's turn succeeds, an unknown second symbol is the 404 naming it, on any store |
| Compare.CompareWithItself | app/api/compare.py:69-75 | comparing a symbol with itself gives two equal entries |
| Compare.CompareBrokenSession | app/api/compare.py:79-81 | a session whose queries raise gives 500 "Internal Server Error" |
| Compare.CompareErrorsAreMapped | app/api/compare.py:77-81 | no non-HTTP exception escapes; every error is one of the four 404s, unchanged, or the generic 500 |
| Compare.CompareDuplicateMetricRows | app/api/compare.py:33-42 | two metric rows for the first symbol's asset make the comparison a 500, whatever the second symbol is |
| MetricsApi.FetchAssetBySymbol | app/api/metrics.py:21-28 | a found asset is stored and carries the symbol; a missing one is 404 "Asset not found" |
| MetricsApi.FetchMetricByAsset | app/api/metrics.py:31-38 | a found metric points at the asset; a missing one is 404 "Metrics not available for this asset" |
| MetricsApi.FormatMetricsResponse | app/api/metrics.py:41-49 | `format_metrics_response`; `GetMetricsSucceedsIffStored` states it carries the symbol and exactly the metric's three values |
| MetricsApi.GetMetrics | app/api/metrics.py:52-64 | `get_metrics`; `GetMetricsSucceedsIffStored`, `GetMetricsUnknownSymbol`, `GetMetricsMissingMetric`, `GetMetricsBrokenSession` and `GetMetricsErrorsAreMapped` state its answers |
| MetricsApi.GetMetricsSucceedsIffStored | app/api/metrics.py:51-59 | success exactly when the symbol has a stored metric; the answer is the symbol and exactly that metric's three values |
| MetricsApi.GetMetricsUnknownSymbol | app/api/metrics.py:21-28 | an unknown symbol is 404 "Asset not found", on any store |
| MetricsApi.GetMetricsMissingMetric | app/api/metrics.py:31-38 | a stored asset without a metric is 404 "Metrics not available for this asset" |
| MetricsApi.GetMetricsBrokenSession | app/api/metrics.py:60-64 | a session whose queries raise gives 500 "Internal Server Error" |
| MetricsApi.GetMetricsErrorsAreMapped | app/api/metrics.py:60-64 | no non-HTTP exception escapes; every error is one of the two 404s, unchanged, or the generic 500 |
| MetricsApi.AgreesWithCompare | app/api/metrics.py:41-48 | the metrics endpoint succeeds for a symbol exactly when the comparison's lookup of it does, with the same three values |
| MetricsApi.IngestedSymbolIsServed | app/api/metrics.py:51-59 | after a symbol's ingestion succeeds, the endpoint answers with exactly the values computed from its closes |
| GenAi.Sentence | app/services/genai.py:23-24 | one record's sentence; `Sentences`, `SummaryStartsWithSymbol` and `BtcSentence` state its place and content |
| GenAi.Sentences | app/services/genai.py:22-26 | one sentence per record, the i-th for the i-th record |
| GenAi.FormatAssetSummary | app/services/genai.py:18-26 | `format_asset_summary`; `FormatAssetSummaryAppend`, `FormatAssetSummaryShort` and `FormatAssetSummaryCons` state how the sentences are joined |
| GenAi.FormatAssetSummaryAppend | app/services/genai.py:22-26 | the text for two non-empty lists is the text of the first, one space, and the text of the second |
| GenAi.FormatAssetSummaryShort | app/services/genai.py:22-26 | no records give the empty string; one record gives its sentence alone |
| GenAi.FormatAssetSummaryCons | app/services/genai.py:22-26 | the text is the first record's sentence, one space, and the text of the rest |
| GenAi.SummaryStartsWithSymbol | app/services/genai.py:23 | a record's sentence, and a non-empty text, begins with the record's symbol |
| GenAi.BtcSentence | tests/test_genai.py:7 | the test record gives "BTC had a 5.0% change in the last 24 hours, with a weekly average price of $48000.0." |
| Summary.RowsFor | app/api/summary.py:45-48 | one projected row per metric row of the asset, in order |
| Summary.JoinRows | app/api/summary.py:28-50 | the inner join; `JoinRowsMembership`, `JoinRowsCount` and `JoinRowsNoMetrics` state which rows it holds and how many |
| Summary.JoinRowsMembership | app/api/summary.py:33-36 | a row is in the join exactly when it is the projection of an asset and a metric row pointing at it; assets without a metric contribute nothing |
| Summary.JoinRowsCount | app/api/summary.py:33-48 | on a store keeping its schema the join has exactly one row per metric row |
| Summary.JoinRowsNoMetrics | app/api/summary.py:40-42 | without metric rows the join is empty |
| Summary.FetchAssetMetrics | app/api/summary.py:28-48 | the query never raises an HTTP error |
| Summary.SummaryWithoutMetrics | app/api/summary.py:60-61 | without metric rows the summary is "No data available to summarize.", whatever the generator would say |
| Summary.GetSummary | app/api/summary.py:52-71 | `get_summary`; `SummaryIsGenerated`, `SummaryWithoutMetrics` and `SummaryBrokenSession` state its answers |
| Summary.SummaryIsGenerated | app/api/summary.py:60-65 | the fixed message is given exactly when there are no metric rows; otherwise the text is the generator's on the joined rows, or 500 when it fails |
| Summary.SummaryBrokenSession | app/api/summary.py:67-71 | a session whose queries raise gives 500 "Internal Server Error" |
| Assets.FormatAsset | app/api/assets.py:32-38 | `format_asset`; `ListAssetsOneEntryPerAsset` states the entry it builds |
| Assets.ListAssets | app/api/assets.py:41-57 | `list_assets`; `ListAssetsOneEntryPerAsset`, `ListAssetsOnValid` and `ListAssetsBrokenSession` state its answers |
| Assets.ListAssetsOneEntryPerAsset | app/api/assets.py:32-54 | one entry per stored asset, in order, with its symbol and name; its metrics are `None` exactly when no row points at it, and otherwise are the formatted rows that do, as many as there are and in row order |
| Assets.ListAssetsOnValid | app/api/assets.py:37 | with at most one metric per asset, an entry's metrics are absent or the single stored metric |
| Assets.ListAssetsBrokenSession | app/api/assets.py:55-57 | a session whose queries raise gives 500 "Internal Server Error" |
| Assets.ListAssetsSingleAsset | tests/test_assets_api_integration.py:80-85 | one asset with one metric lists as that symbol, name and three values |
| ClearDb.ClearedTable | app/api/clear_db.py:21-25 | clearing a table leaves both key counters as they were |
| ClearDb.ClearTableData | app/api/clear_db.py:21-26 | a step that goes through empties its table; one that raises changes nothing |
| ClearDb.ClearAllData | app/api/clear_db.py:29-37 | metrics first, then assets; stops at the first failure with 500 "Error clearing data."; keeps the constraints |
| ClearDb.ClearDbAnswer | app/api/clear_db.py:45-51 | the answer is a message exactly when the clear went through |
| ClearDb.ClearDb | app/api/clear_db.py:40-51 | the store and the answer are what `ClearAll` and `ClearDbAnswer` give; the constraints are kept |
| ClearDb.ClearTableEmptiesOnlyThatTable | app/api/clear_db.py:21-25 | clearing one table empties it and leaves the other exactly as it was |
| ClearDb.ClearAll | app/api/clear_db.py:29-37 | the two deletes in order; `ClearAllData` is proved equal to it, and `ClearAllEmptiesBothTables`, `ClearAllPartial` and `ClearAllKeepsValid` state its results |
| ClearDb.ClearAllEmptiesBothTables | app/api/clear_db.py:32-33 | the clear succeeds exactly when neither step raises, and then both tables are empty |
| ClearDb.ClearAllPartial | app/api/clear_db.py:32-37 | when the asset step raises, the metrics stay deleted and every asset remains |
| ClearDb.ClearAllKeepsValid | app/api/clear_db.py:32-33 | because metrics go first, every state the clear passes through or stops in keeps the foreign key |
| ClearDb.AssetsFirstBreaksForeignKey | app/api/clear_db.py:32 | the other order would leave a metric row pointing at no asset |
| ClearDb.ClearDbAnswers | app/api/clear_db.py:45-51 | success gives "Database cleared successfully."; every failure, including the inner 500, gives 500 "Failed to clear database." |
| ClearDb.ClearedStoreReadsEmpty | app/api/clear_db.py:32-33 | after a successful clear the listing is empty and the summary is the no-data message |

## Left out

- The price provider (`fdr.DataReader`, app/services/ingestion.py:36) is a network call. The feed map replaces it. The same closes are seen on every retry.
- Floating point is not modelled.
  - Prices are exact reals.
  - `round(x, 2)` is modelled as round-half-even of the exact value, not of the binary double.
  - numpy's mean is the exact mean.
  - A zero previous close is excluded by a precondition (`BaselineNonZero`): numpy would return inf or nan, not raise.
- Clocks and date formatting are not modelled. `datetime.now`, `strftime` and the `utcnow` defaults become a day number `now`.
- SQLAlchemy sessions, `await`, and rollback are not modelled. Each commit is an immediate update of the store. A failing step changes nothing of its own: the fault inputs choose where a failure happens.
- The commit inside the `except` branch of `ingest_data` (app/services/ingestion.py:136) is not modelled. If it raised, the error would leave the batch.
- The SQLite database does not enforce foreign keys by default. The model treats the declared key as an invariant (`Valid`) that every operation is proved to keep.
- Ingestion.PersistOnce: like `UpsertMetric`, `RetrySymbol` and `IngestData`, it runs only on stores that keep the one-metric rule. On such stores `upsert_metric`'s lookup cannot raise. The raise on two rows for one asset is modelled in the functions (`Attempt`, `DuplicateMetricRowsFailEveryAttempt`) and not in the methods.
- Key allocation is modelled as a counter that never reuses a key. SQLite may reuse the key of a deleted row.
- Result order is not fixed:
  - The join of the summary query is enumerated asset by asset. SQL fixes no order, so its properties are stated as membership and count.
  - The listing keeps the stored order of assets.
- `Session` models only two cases: every query answers, or every query raises. Only this is modelled of a database that is partly failing.
- The `get_db` dependency of the summary endpoint (app/api/summary.py:16-25) is not modelled. It rewraps errors as "Database session error" at the framework level.
- `generate_summary` and `get_summarizer` (app/services/genai.py:9-58) run a foreign ML model. `generate_summary` is a parameter of `Summary.GetSummary`.
- Float-to-text rendering inside the prompt is the parameter `show`.
- `GenAi.BtcSentence`: the test checks that the expected sentence occurs in the generated text. The model checks that it is the prompt.
- Three files are not part of this model:
  - app/core/database.py: engine and session setup.
  - app/main.py: the FastAPI wiring.
  - app/api/ingest.py: a wrapper that calls `ingest_data` with the defaults.
- Logging is not modelled. The service is sequential, so concurrency is not modelled either.
