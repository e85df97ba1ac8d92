# Wyckoff dashboard core, modelled in Dafny

This project models the market-data core of a Wyckoff trading dashboard.
The dashboard is a React single-page application. It draws prices from a public quote provider and keeps a
watchlist and an analysis history for the user. The model covers two source files.

`services/stockData.ts` is the data layer:
- the in-place indicators, which are the 50- and 200-bar simple moving averages and the anchored VWAP;
- ticker normalisation per market (US, EU, CN) and the chart range for each bar interval;
- the symbol-search filter;
- the candle normaliser and best-price selection of `fetchStockData`;
- the batch-quote price selection of `fetchBatchQuotes`, and its reverse mapping from provider symbols to the caller's symbols.

`App.tsx` is the dashboard:
- the bounded analysis history;
- adding, removing and re-costing watchlist rows, the periodic price merge and the analysis update;
- the portfolio/watch-only partition;
- the currency-sign, score-colour and action-badge helpers.

Modules, one concept each:

| file | module | what it holds |
|---|---|---|
| `seqs.dfy` | `Seqs` | `Option`, an order-keeping `Filter`, `Take`, and subsequence and distinctness facts |
| `text.dfy` | `Text` | `trim`, ASCII upper/lower case, prefix, suffix and substring tests |
| `stock_types.dfy` | `StockTypes` | the records of `types.ts`: candles, history items, watchlist items, analysis snapshots, metadata |
| `symbols.dfy` | `Symbols` | `formatTickerForMarket`, `getRangeForInterval`, the intraday test, `searchSymbols` |
| `indicators.dfy` | `Indicators` | `calculateSMA` and `calculateVWAP` as array methods, with their specifying functions |
| `quotes.dfy` | `Quotes` | provider quotes, the extended-hours price rule, and `fetchBatchQuotes` as a loop over the returned quotes |
| `series.dfy` | `Series` | `fetchStockData`: the chart payload, the normaliser loop, the indicator pipeline, final price and metadata |
| `display.dfy` | `Display` | `getCurrencySymbol`, `getScoreColor`, `getActionColor` |
| `watchlist.dfy` | `Watchlist` | the history and watchlist operations, as functions on lists and as methods of the `AppState` class |

Shared modelling choices:
- Prices, volumes and scores are `real`.
- An optional or possibly missing provider field is an `Option`; a JSON `null` and an absent field are both `None`.
- JavaScript truthiness of a price ("present and non-zero") is the predicate `Quotes.Truthy`.
- The network is replaced by the provider's answer, which arrives as a parameter. For the quote, search and batch requests a failed request is `None`, as the source turns those failures into `null`, `[]` or `{}`. The chart request of `fetchStockData` is a `Series.ChartAnswer`: it failed with a message, answered without a result, or answered with one.
- The clock (`Date.now()`) and generated ids arrive as parameters.

## Model

| member | source | states |
|---|---|---|
| Indicators.CalculateSMA | services/stockData.ts:7-22 | the array afterwards is `WithSMA` of the array before: every bar from index window-1 on gets the mean close of the `window` bars ending at it, in the field of that window |
| Indicators.SmaWrites | services/stockData.ts:7-22 | window 50 writes `ma50` exactly at indices >= 49 and window 200 writes `ma200` exactly at indices >= 199; window 50 leaves `ma200` as it was and window 200 leaves `ma50`; nothing else in a bar changes; any other window leaves the series unchanged |
| Indicators.SmaOfConstantCloses | services/stockData.ts:13-17 | over bars that all close at c, the moving average is c |
| Indicators.SmaIdempotent | services/stockData.ts:7-22 | running the moving average twice gives the same series as running it once |
| Indicators.CalculateVWAP | services/stockData.ts:28-43 | the array afterwards is `WithVWAP` of the array before: each bar whose cumulative volume is positive gets cumulative typical-price-times-volume over cumulative volume |
| Indicators.VwapWrites | services/stockData.ts:33-41 | a bar gets a VWAP exactly when the cumulative volume up to it is positive, with that ratio as value; only the `vwap` field changes |
| Indicators.VwapAtSinglePrice | services/stockData.ts:28-43 | when every bar trades at one price p, each written VWAP is p |
| Indicators.VwapAfterZeroVolume | services/stockData.ts:37-41 | leading bars with no volume get no VWAP; the first bar with volume gets its own typical price |
| Indicators.VwapIdempotent | services/stockData.ts:28-43 | recomputing the VWAP over an annotated series changes nothing |
| Indicators.SmaVwapCommute | services/stockData.ts:231-233 | the moving average and the VWAP touch independent fields, so their order does not matter |
| Text.Trim | services/stockData.ts:46 | the result has no whitespace at either end, and it is the input with only whitespace removed around it |
| Symbols.Clean | services/stockData.ts:46 | the cleaned ticker is trimmed and upper-case |
| Symbols.FormatTicker | services/stockData.ts:45-73 | the result starts with the cleaned ticker; it is exactly the cleaned ticker iff the ticker already has a dot or the market is not CN; a CN result always has an exchange suffix |
| Symbols.QualifyCleaned | services/stockData.ts:48-72 | the suffix rule on a cleaned ticker: the same three facts as for the raw ticker |
| Symbols.CnSuffixByFirstDigit | services/stockData.ts:64-70 | a dot-less CN ticker gets `.SS` when it starts with 6, `.SZ` for 0 or 3, `.BJ` for 4 or 8, and `.SS` otherwise |
| Symbols.FormatTickerIdempotent | services/stockData.ts:45-73 | formatting an already formatted ticker returns it unchanged |
| Symbols.FormatFor | services/stockData.ts:279 | a symbol missing from the market map is only cleaned; otherwise it is formatted for its market |
| Symbols.IntradayIntervals | services/stockData.ts:205 | the intraday test holds exactly for 15m, 1h and 1mo |
| Symbols.RangeFor | services/stockData.ts:75-84 | every interval maps to one of the ranges 60d, 730d, 2y, 5y, 10y |
| Symbols.RangeGrowsWithInterval | services/stockData.ts:75-84 | a longer bar interval never gets a shorter range, and distinct intervals get distinct ranges |
| Symbols.OrElse | services/stockData.ts:157-158 | `a \|\| b` on optional text: `a` when it has text, otherwise `b`; so the result has text iff one of the two has |
| Symbols.ToSearchResult | services/stockData.ts:155-161 | a search hit keeps its symbol, exchange and type; the short name is the short name, else the long name, else the symbol; the long name is the long name, else the short name, else the symbol; both are non-empty |
| Symbols.KeptAreSearchable | services/stockData.ts:136-154 | every kept quote is one of the provider's quotes and passes the market filter |
| Symbols.SearchSymbols | services/stockData.ts:126-167 | a query shorter than 2 UTF-16 code units or a failed request gives no results; otherwise there are never more results than quotes |
| Symbols.SearchResultsMatchMarket | services/stockData.ts:136-161 | each result comes from a kept quote and has a symbol; a US result has no dot unless it ends in `.K`; a CN result ends in `.SS` or `.SZ` or comes from SHH/SHZ; an EU result comes from a listed EU exchange or has an EU suffix |
| Symbols.SearchSymbolsKeepsMatches | services/stockData.ts:136-161 | for a query that passes the guard, the results are the converted entries of a subsequence of the provider's entries (so in provider order), each passing the market filter, and holding every entry that passes it exactly as many times as the provider sent it (and no other entry) |
| Symbols.SearchKeepsEveryMatch | services/stockData.ts:136-161 | every provider entry that passes the market filter appears among the results |
| Text.Utf16Length | services/stockData.ts:127 | `length` counts UTF-16 code units: between one and two per character, exactly one per character when all are in the Basic Multilingual Plane |
| Symbols.QueryGuardCountsCodeUnits | services/stockData.ts:127 | a single astral character has length 2 and passes the guard; a single letter has length 1 |
| Series.At | services/stockData.ts:208 | reading a column past its end gives a missing value |
| Series.CandleAt | services/stockData.ts:211-228 | a kept row's candle has the row's close; its open, high, low and volume are the row's values, or 0 where missing; it has the timestamp in milliseconds, the date label, and no indicators yet |
| Series.KeptRows | services/stockData.ts:207-209 | the rows kept are in range, have a close, and are in increasing order; there are at most as many as rows scanned |
| Series.NormalizedUpTo | services/stockData.ts:207-229 | after n rows the series has one candle per kept row, so at most n candles |
| Series.NormalizeCandles | services/stockData.ts:204-229 | the loop's output is the candles of the kept rows (`NormalizedUpTo`) |
| Series.NormalizedIsKeptRows | services/stockData.ts:207-229 | the k-th candle is the candle of the k-th kept row |
| Series.KeptRowsComplete | services/stockData.ts:207-209 | every row with a close is kept |
| Series.NormalizerDropsMissingClose | services/stockData.ts:208-209 | of five rows with the third close missing, rows 0, 1, 3 and 4 are kept |
| Series.NormalizedIsOrdered | services/stockData.ts:207-229 | increasing timestamps give candles in increasing time order |
| Series.NotFoundMessage | services/stockData.ts:189-193 | the not-found error starts by naming the formatted symbol, and carries a hint exactly when the market is CN or EU |
| Series.RethrownMessage | services/stockData.ts:265-267 | the catch-all handler rethrows the caught message, or a generic non-empty one when that is empty |
| Series.LastClose | services/stockData.ts:237 | the starting price is the last candle's close, or the chart's regular price when there are no candles |
| Series.MetadataOf | services/stockData.ts:254-261 | the metadata keeps symbol, price and currency, and takes its exchange name from the chart's full exchange name; the short name is the chart's short name, else the symbol; the long name is the long name, else the short name, else the symbol |
| Series.FetchStockData | services/stockData.ts:169-268 | the result is `ExpectedOutcome`: a failed chart request fails with its own message, a missing chart with the not-found message, and a chart gives the chart's outcome |
| Series.ProcessChart | services/stockData.ts:196-263 | without timestamps or quote columns the result is an invalid-data failure; otherwise the annotated normalised candles with the chosen price and metadata |
| Series.AnnotationKeepsCandles | services/stockData.ts:231-233 | the three indicator passes change only `ma50`, `ma200` and `vwap` |
| Series.AnnotatedMovingAverages | services/stockData.ts:231-232 | after the pipeline, a fresh candle has `ma50` iff its index is >= 49 and `ma200` iff its index is >= 199, with the trailing means of the closes as values |
| Series.SmaKeepsCloses | services/stockData.ts:231-232 | the first moving-average pass does not change the means the second pass reads |
| Series.FetchedChartSucceeds | services/stockData.ts:204-263 | a chart with timestamps and quote columns always yields a series, one candle per row that has a close, even when no row has one |
| Series.FetchedSeriesIsNormalized | services/stockData.ts:204-263 | for each row that has a close, the candle at its position, apart from its indicators, is that row's candle |
| Quotes.CurrentPrice | services/stockData.ts:237-251 | without a quote the price is the fallback; with one, a truthy pre-market price wins in PRE, else a truthy post-market price wins in POST, CLOSED or POSTPOST, else a truthy regular price, else the fallback |
| Quotes.SourceFor | services/stockData.ts:243-250 | each source is chosen exactly when it is available and no source before it in the order pre-market, post-market, regular, fallback is |
| Quotes.CurrentPriceFollowsTable | services/stockData.ts:240-251 | the chosen price is the one the decision table names |
| Quotes.CurrentPriceExamples | services/stockData.ts:240-251 | pre-market 105 wins over regular 100 in PRE; in REGULAR the regular 100 wins; without a quote the candle close stays |
| Quotes.BatchPrice | services/stockData.ts:291-298 | a truthy pre-market price in PRE, else a truthy post-market price after hours, else the regular price as given |
| Quotes.BatchPriceIsCurrentPrice | services/stockData.ts:291-298 | the batch rule is the single-quote rule with the regular price as fallback |
| Quotes.FormattedSymbols | services/stockData.ts:279 | one formatted symbol per input symbol |
| Quotes.FormattedSymbolsAt | services/stockData.ts:279 | the i-th formatted symbol is the i-th input formatted for its market |
| Quotes.FirstIndexOf | services/stockData.ts:306 | the index found is the first at or after `from` that holds the target; none means no such index |
| Quotes.CreditedSymbol | services/stockData.ts:306-307 | a returned symbol is credited to a non-empty input symbol |
| Quotes.CreditedSymbolIsFirstMatch | services/stockData.ts:306-307 | a quote is credited iff the first input that formats to its symbol is non-empty, and then to that input |
| Quotes.CreditAppend | services/stockData.ts:290-310 | one more quote either leaves the map alone (no input matches) or sets its credited symbol to its batch price |
| Quotes.CreditQuotes | services/stockData.ts:290-310 | the loop over the returned quotes builds exactly `Credit` |
| Quotes.FetchBatchQuotes | services/stockData.ts:275-316 | no symbols or a failed request give the empty map; otherwise the map is `Credit` of the returned quotes |
| Quotes.CreditedKeys | services/stockData.ts:290-310 | every key was credited by some returned quote, and its value is the batch price of the last such quote |
| Quotes.CreditedQuotesAppear | services/stockData.ts:306-309 | every quote with a credited symbol puts that symbol in the map |
| Quotes.PriceMapKeysAreFirstInputs | services/stockData.ts:275-316 | every key of the price map is a non-empty input symbol |
| Display.CurrencySymbol | App.tsx:229-237 | no currency gives `$`; EUR, CNY, USD, GBP and CHF give their signs; any other code is shown as is |
| Display.CurrencySymbolNonEmpty | App.tsx:229-237 | the sign is never empty, and differs from the code only for the five known codes |
| Display.ScoreColorOf | App.tsx:1063-1068 | emerald iff score >= 75, blue iff 50 <= score < 75, yellow iff 30 <= score < 50, rose iff score < 30 |
| Display.ScoreColorMonotone | App.tsx:1063-1068 | a higher score never gets a worse colour |
| Display.ActionColor | App.tsx:1070-1077 | no action gives the neutral slate badge; in the lower-cased text "buy" or "add" gives green, otherwise "sell" or "stop" gives red, otherwise "trim" gives amber, and each colour needs its words; text with none of the five words gets the blue badge, and only such text does |
| Display.ActionColorIgnoresCase | App.tsx:1072 | the badge does not depend on letter case |
| Display.ActionColorOfBuyAndAdd | App.tsx:1073 | Buy and Add get the green badge |
| Display.ActionColorOfSellAndStopLoss | App.tsx:1074 | Sell and Stop Loss get the red badge |
| Display.ActionColorOfTrim | App.tsx:1075 | Trim gets the amber badge |
| Display.ActionColorOfHoldAndWait | App.tsx:1076 | Hold and Wait get the blue badge |
| Watchlist.HistoryWith | App.tsx:690-697 | the updated history has the new item first and holds one more entry than the earlier entries for other symbols, capped at 50 |
| Watchlist.HistoryWithProperties | App.tsx:690-697 | the other entries are the earlier entries for other symbols, in their old order, cut to fit; none of them is for the new item's symbol |
| Watchlist.HistoryWithKeepsSymbolsDistinct | App.tsx:690-697 | a history with one entry per symbol keeps that property |
| Watchlist.AppState.UpdateHistory | App.tsx:681-698 | the new history is `HistoryWith` of the old one and a fresh item |
| Watchlist.NewWatchItem | App.tsx:743-767 | the new row has the given id, symbol, market, cost and currency, and the given time as `addedAt`; its price starts at the cost; it carries an analysis iff the loaded analysis is for the same symbol, and then it is that analysis's snapshot stamped with the same time |
| Watchlist.AddKeepsSymbolsDistinct | App.tsx:736-772 | adding a symbol not yet listed keeps one row per symbol |
| Watchlist.AppState.AddToWatchlist | App.tsx:736-772 | a listed symbol only sets the "already in your watchlist" warning; otherwise the new row is appended |
| Watchlist.WithoutId | App.tsx:775 | removal never lengthens the list |
| Watchlist.WithoutIdProperties | App.tsx:774-778 | exactly the rows with the id disappear; order is kept; an unknown id changes nothing; one row per symbol is kept |
| Watchlist.AppState.RemoveFromWatchlist | App.tsx:774-778 | the new watchlist is `WithoutId` of the old one |
| Watchlist.WithCost | App.tsx:814-816 | re-costing keeps the number of rows |
| Watchlist.WithCostProperties | App.tsx:814-816 | only the cost basis changes, only on rows with the id, and there to the new cost |
| Watchlist.AppState.HandleUpdateCost | App.tsx:808-822 | nothing changes without an edited item or with an unparsable cost; otherwise the rows of the edited id get the new cost and the dialog closes |
| Watchlist.MarketMapOfProperties | App.tsx:628-631 | the market map has exactly the listed symbols, each with the market of its last row |
| Watchlist.SymbolsOf | App.tsx:627 | one symbol per row |
| Watchlist.WithFreshPrices | App.tsx:639-645 | the merge keeps the number of rows |
| Watchlist.WithFreshPricesProperties | App.tsx:638-651 | only the current price changes, exactly on rows whose symbol has a defined fresh price; an empty price map changes nothing |
| Watchlist.RefreshedPriceComesFromQuote | App.tsx:623-651 | a row whose price changes took the batch price of a returned quote credited to its symbol |
| Watchlist.AppState.RefreshPrices | App.tsx:623-651 | the new watchlist is the old one merged with the batch prices of its own symbols and markets |
| Watchlist.WithAnalysis | App.tsx:707-730 | the analysis update keeps the number of rows |
| Watchlist.WithAnalysisProperties | App.tsx:705-734 | only rows of the symbol change, and in them only the price, currency, loading flag and stored analysis |
| Watchlist.SameSymbolsKeepDistinct | App.tsx:705-734 | the re-cost, merge and analysis updates keep one row per symbol |
| Watchlist.AppState.UpdateWatchlistAnalysis | App.tsx:705-734 | the new watchlist is `WithAnalysis` of the old one with a snapshot of the result |
| Watchlist.PartitionMembership | App.tsx:1085-1086 | a row is in the portfolio iff its cost basis is positive and in the watch list iff it is zero; never in both |
| Watchlist.PartitionCovers | App.tsx:909-913 | with no negative cost basis, the two groups together hold every row |
| Watchlist.AppState.constructor | App.tsx:550-559 | the state starts from the given watchlist and history, with no warning and no open dialog |

## Left out

- Network access is not modelled. That covers `fetchWithFallback`, the CORS proxies and the URL construction, with its `encodeURIComponent`, `range` and `includePrePost` parameters. The provider's parsed answer is a parameter. A request that throws is `None`, except the chart request, whose error message is rethrown (`Series.RethrownMessage`).
- The de-duplicated symbol list that `fetchBatchQuotes` sends is not modelled. It only shapes the request URL.
- Thrown errors become `Outcome.Failure(message)`. The error re-wrapping at services/stockData.ts:265-267 keeps the message and is folded into the failure.
- Rendering a timestamp as an ISO date is not modelled. A candle's date is an uninterpreted label `DateLabel(timestamp, intraday)`; the milliseconds are kept exactly.
- Floating point is modelled as exact `real` arithmetic: no rounding, no NaN, no infinities.
  - `parseFloat` becomes an `Option<real>` parameter, with `None` for NaN.
  - `sum / window` for a non-positive window is irrelevant, because such a window writes nothing.
- Upper and lower case are ASCII only. `toUpperCase`/`toLowerCase` on other letters are not modelled. The white space that `trim` strips is modelled in full (`Text.IsWhitespace`).
- `Date.now()` and the id `Date.now().toString()` arrive as separate parameters, so the model does not force id and timestamp to agree.
- Persistence to `localStorage` is not modelled. It is a write-only side effect of each update.
- React's deferred state updates are not modelled. Each update is applied at once to the current list.
- The rendering and the modal plumbing of App.tsx are not modelled, except the edited item and the dialog flag that `handleUpdateCost` resets.
- The history sort for the radar view is not modelled.
- The `handleUpdateAll` loop is not modelled. It calls the AI service; only its portfolio/watch-only selection is modelled.
- `services/gemini.ts` and `constants.ts` are not part of this model.
- A chart whose `indicators.quote[0]` lacks a column makes the source throw a TypeError. The model treats every column as a sequence, and reading past its end yields a missing value.
- `Symbols.RangeFor` has no `default: '2y'` branch: every `Interval` value has its own case, so that branch cannot be reached with a typed interval.
- Watchlist.WithFreshPrices: a provider `null` price is treated as missing, so the row keeps its old price. The source's merge test `freshPrice !== undefined` lets a `null` through, and `refreshPrices` would store it as the row's price. `Quotes.BatchPrice` likewise gives `None` where the source puts `null` into the price map. `Option` does not tell `null` from `undefined`, and this merge is the only place in the core where the two behave differently.
- `Watchlist.IsWatchOnly`: `!w.costBasis` also admits an undefined or NaN cost, which a typed `real` cannot be, so only cost 0 is watch-only.

Where the written behaviour is narrower than the comments around it, the model follows the code:
- `fetchBatchQuotes` credits a quote only to the first input symbol that formats to it. A later input with the same formatted form gets no entry, so its row keeps its old price.
- `calculateSMA` computes means for any window but stores them only for windows 50 and 200. Any other window leaves the series unchanged.
- `interval.includes('m')` makes the monthly interval `1mo` count as intraday, so its candles get minute-resolution labels.
- The price merge keeps a row's old price when the batch map has no defined price for its symbol (a `null` price counts as missing here; see `Watchlist.WithFreshPrices` under "## Left out").
- A failed batch request yields the empty map, so a refresh then changes nothing.
