# Finance dashboard core, modelled in Dafny

This project models the decision and arithmetic logic of a Django finance dashboard. The dashboard shows forex pairs, stocks and macro indicators, records trades in portfolios, and attaches trading "insights" to them. The model covers:

- **Signal labels** (module `Signals`). These are the threshold rules that turn an indicator reading into a label: moving average, RSI, MACD, Bollinger bands, stochastic, ATR, the volatility index, index/ETF moves, the ten-year yield, volatility, volume, and the risk overlay. A reading that pandas reports as NaN is `None`.
- **Technical analysis payload** (`Technical`). This is the "fewer than 50 daily bars means no analysis" guard, plus the label attached to each indicator's latest value. The indicator values themselves are inputs.
- **Macro snapshot** (`Macro`). The instruments are read in a fixed order inside one `try`, the ten-year yield has a fallback source, and the fixed positioning summary is always added.
- **Gainers and losers table** (`Gainers`). Each of ten pairs is read in order. A pair with fewer than two bars is skipped. A division by a zero close or a provider error ends the loop. The collected rows are then sorted stably by daily change, largest first.
- **Trade-signal synthesiser** (`Synthesizer`). For each available payload it counts bullish and bearish evidence, classifies the pair as Buy, Sell or Hold with a strength, and writes the detail text and the risk overlay.
- **Read-through cache** (`MarketCache`). This is a map-backed `Cache` class with the four cached getters. A truthy hit is returned without fetching. A miss fetches and stores the result. A failure returns a fallback and stores nothing. An `out` flag `fetched` records whether the provider was consulted.
- **Trade and portfolio arithmetic** (`Models`, `Analytics`):
  - trade P&L and stop-loss risk;
  - the two drawdown loops (the model's Decimal one and the analytics page's float one);
  - the portfolio analytics list and the details-page metrics.
- **Symbol and string helpers** (`Symbols`, `Text`, `Models`):
  - the `=X` provider suffix;
  - the global search;
  - the `Insight #<id>` back-reference that a trade's `ref` carries;
  - the pair display name, and the attachment name and type tests.
- **Form rules** (`Forms`): the attachment checks, the trade-insight link check, and the symbol choices for each category.

Provider calls become parameters: either the provider's answer (a `Raised` alternative or the returned rows) or a function from ticker to answer. Exact decimals and floats are both `real`.

In the macro snapshot, all six instrument blocks are read inside one `try` (finance_dashboard/services/analysis_service.py:29-124). The first exception, such as a history with a single close, therefore discards that instrument and every later one, including the ten-year yield. Only the positioning summary, added after the `try` at line 127, always survives. See `Macro.SnapshotEntry` and `Macro.FirstFailureLeavesCot`.

Two other behaviours of the code are stated as proved properties:
- Subtracting the (negative) mean loss means the analytics page's expectancy is never negative (`Analytics.Expectancy`).
- The model's drawdown loop divides by a zero peak, which the analytics page guards against. `Models.Drawdown` is `None` there. `Analytics.ViewRunMirrorsModel` shows that the two loops otherwise agree, with opposite signs.

## Model

| member | source | states |
|---|---|---|
| Quotes.LastAndChange | finance_dashboard/views.py:32-44 | no record iff the provider returned no rows; `last` is the latest close; a change exists iff there is a non-zero previous close, and it is that close's percentage move |
| Signals.MaSignal | finance_dashboard/services/analysis_service.py:276-280 | Neutral iff price or average is missing; Bullish iff price is strictly above the average; Bearish iff at or below it |
| Signals.RsiSignal | finance_dashboard/services/analysis_service.py:282-291 | Overbought iff above 70, Oversold iff below 30, Neutral iff missing or within [30, 70] |
| Signals.MacdSignal | finance_dashboard/services/analysis_service.py:293-297 | Neutral iff either line is missing; Bullish iff the MACD line is strictly above its signal line; equality is Bearish |
| Signals.BbSignal | finance_dashboard/services/analysis_service.py:299-308 | Neutral iff any input is missing or the price lies within the bands; Overbought iff price is above the upper band; Oversold iff below the lower band and not above the upper one |
| Signals.StochSignal | finance_dashboard/services/analysis_service.py:310-319 | Overbought iff above 80, Oversold iff below 20, Neutral iff missing or within [20, 80] |
| Signals.AtrSignal | finance_dashboard/services/analysis_service.py:260 | High iff the ATR is defined and above 0.01, Low otherwise |
| Signals.VixSignal | finance_dashboard/services/analysis_service.py:39 | Low iff below 20, High iff above 30, Medium iff within [20, 30] |
| Signals.ChangeSignal | finance_dashboard/services/analysis_service.py:52 | Bullish iff the change is strictly positive, Bearish otherwise |
| Signals.YieldSignal | finance_dashboard/services/analysis_service.py:105 | Rising iff the yield difference is strictly positive, Falling otherwise |
| Signals.VolatilitySignal | finance_dashboard/services/analysis_service.py:372-385 | Low for fewer than two prices or an undefined volatility; otherwise High iff above 1.5 %, Medium iff in (0.8, 1.5], Low iff at most 0.8 |
| Signals.VolumeStatus | finance_dashboard/services/analysis_service.py:352 | High iff the last volume exceeds 1.2 times the mean, Medium iff in (0.8, 1.2] times it, Low otherwise |
| Signals.RiskSentiment | finance_dashboard/services/analysis_service.py:394 | High Risk iff the volatility index is above 25, Low Risk iff below 15, Medium Risk iff within [15, 25] |
| Technical.TechnicalAnalysis | finance_dashboard/services/analysis_service.py:151-274 | a payload iff the provider answered with at least 50 bars and the indicator library did not raise; the payload's pair has `=X` removed and each indicator carries its latest value and the label its rule gives |
| Macro.PercentMove | finance_dashboard/services/analysis_service.py:35 | defined iff the previous close is non-zero, and then it is the percentage move from it |
| Macro.MoveSignal | finance_dashboard/services/analysis_service.py:48-52 | Bullish iff the percentage move is positive: `cur > prev` for a positive previous close, `cur < prev` for a negative one, and `cur > 0` when it is zero |
| Macro.InstrumentRead | finance_dashboard/services/analysis_service.py:30-93 | no entry for an empty history; an exception iff the provider raised or returned exactly one close; otherwise the latest close, its move, its label and the last 30 closes |
| Macro.TnxRead | finance_dashboard/services/analysis_service.py:111-121 | the fallback yield block: no entry for an empty history, an exception for a raise or a single close, else the absolute change of the last two closes and its label |
| Macro.YieldRead | finance_dashboard/services/analysis_service.py:96-121 | a raising FRED series falls back to the fallback block; a FRED series never ends the enclosing `try`; with two or more observations the entry is the last value, its difference from the one before, that difference's label and the last 30 values; a single observation is its own previous value, so the change is 0 |
| Macro.MacroData | finance_dashboard/services/analysis_service.py:27-130 | the snapshot always holds the fixed positioning summary under "COT" and no key besides the six instruments' keys and "COT" |
| Macro.FailureEndsRun | finance_dashboard/services/analysis_service.py:29-124 | an exception in one block discards every later block |
| Macro.AssembleEntry | finance_dashboard/services/analysis_service.py:29-124 | with distinct keys, a key is present iff its block produced an entry and no earlier block raised, and then it holds that entry |
| Macro.SnapshotEntry | finance_dashboard/services/analysis_service.py:29-127 | the same for the six instruments of the real snapshot |
| Macro.FirstFailureLeavesCot | finance_dashboard/services/analysis_service.py:29-127 | when the volatility index raises, the snapshot is the positioning summary alone |
| Gainers.PairStep | finance_dashboard/services/analysis_service.py:334-361 | a pair is skipped iff it has fewer than two bars; the loop is aborted iff the provider raised or a divisor close is zero; a row has the stripped pair, the latest close, the daily change, a weekly change equal to the daily one for fewer than five bars, and the volume and volatility labels |
| Gainers.CollectedFromPairs | finance_dashboard/services/analysis_service.py:333-364 | every collected row is the row of one of the listed pairs |
| Gainers.Insert | finance_dashboard/services/analysis_service.py:367 | inserting adds exactly the one row |
| Gainers.InsertTies | finance_dashboard/services/analysis_service.py:367 | the inserted row goes first among the rows it ties with, and every other tie group is unchanged |
| Gainers.InsertSorted | finance_dashboard/services/analysis_service.py:367 | inserting into a table ordered by daily change keeps it ordered |
| Gainers.SortByChange | finance_dashboard/services/analysis_service.py:367 | the result is a permutation of the rows, ordered by daily change, largest first |
| Gainers.SortStable | finance_dashboard/services/analysis_service.py:367 | the sort is stable: for every daily change, the rows with that change keep their input order |
| Gainers.TieKeepsOrder | finance_dashboard/services/analysis_service.py:367 | two rows with equal daily change come out in input order |
| Gainers.CollectPerformance | finance_dashboard/services/analysis_service.py:331-364 | the loop collects the rows of the pairs in order, up to the first exception |
| Gainers.ForexGainersLosers | finance_dashboard/services/analysis_service.py:328-367 | the table is ordered by daily change, is a permutation of the collected rows, and keeps the collection order among equal changes |
| Gainers.RowsHaveHistory | finance_dashboard/services/analysis_service.py:338-348 | every row of the table comes from one of the ten pairs with at least two bars, and its weekly change equals its daily change when there were fewer than five |
| Synthesizer.VixLevel | finance_dashboard/services/analysis_service.py:393 | the snapshot's volatility-index value, or 20 when it has none |
| Synthesizer.Alert | finance_dashboard/services/analysis_service.py:415-463 | Buy iff two of the three bullish conditions hold; Sell iff not Buy and two bearish conditions hold; Strong iff the winning side has all three; Weak iff Hold; at most three pieces of evidence fire; the pair and the risk overlay are copied |
| Synthesizer.Present | finance_dashboard/services/analysis_service.py:396-398 | the available payloads are exactly the `Some` entries, no more than the input |
| Synthesizer.PresentConcat | finance_dashboard/services/analysis_service.py:396-398 | the available payloads of a list are those of its parts, in order |
| Synthesizer.PresentSingle | finance_dashboard/services/analysis_service.py:396-398 | a present payload gives itself and a missing one nothing; with `PresentConcat` this fixes the result on every list |
| Synthesizer.Alerts | finance_dashboard/services/analysis_service.py:389-463 | one record per available payload, in input order, each the record for that payload |
| Synthesizer.NoClearSignalsIff | finance_dashboard/services/analysis_service.py:419-461 | the detail text is "No clear signals" iff no evidence fired and the volatility index is within [15, 25] |
| Synthesizer.CountBullish | finance_dashboard/services/analysis_service.py:420-429 | the bullish counter equals the number of bullish labels appended, which are the bullish evidence in order |
| Synthesizer.CountBearish | finance_dashboard/services/analysis_service.py:432-441 | the bearish counter equals the number of bearish labels appended, which are the bearish evidence in order |
| Synthesizer.PairAlert | finance_dashboard/services/analysis_service.py:400-463 | the loop body builds exactly the record `Alert` describes |
| Synthesizer.GenerateSignalsAlerts | finance_dashboard/services/analysis_service.py:387-468 | the result is the alert list for the snapshot's volatility level: one record per available payload, with its pair and the shared risk overlay |
| MarketCache.SymbolKey | finance_dashboard/views.py:58 | the key is the symbol behind the `symbol_` prefix |
| MarketCache.TechnicalKey | finance_dashboard/services/analysis_service.py:146 | the key starts with `technical_`, ends with `_` and the period, and holds exactly the pair in between |
| MarketCache.TechnicalKeysSeparatePairs | finance_dashboard/services/analysis_service.py:146 | two different pairs read with the same period get different cache keys |
| MarketCache.Hit | finance_dashboard/views.py:59-61 | a hit iff the key is stored with a truthy value, and then it is that value |
| MarketCache.Cache.Get | finance_dashboard/views.py:59 | the stored value under the key, if any |
| MarketCache.Cache.Set | finance_dashboard/views.py:64 | the key now maps to the value, every other key is unchanged, and every key still holds its getter's kind of value |
| MarketCache.Cache.GetSymbolData | finance_dashboard/views.py:56-68 | a truthy hit is returned without fetching and with the cache unchanged; else a successful read is returned and stored under its key; else the empty record is returned and nothing is stored |
| MarketCache.Cache.GetTechnicalAnalysis | finance_dashboard/services/analysis_service.py:144-274 | a hit is returned without fetching; on a miss the analysis is computed, and stored only when it is available |
| MarketCache.Cache.GetMacroData | finance_dashboard/services/analysis_service.py:20-130 | a truthy hit is returned without fetching; on a miss the snapshot is computed and always stored |
| MarketCache.Cache.GetForexGainersLosers | finance_dashboard/services/analysis_service.py:321-370 | a truthy hit is returned without fetching; on a miss the sorted table is computed and stored, even when empty |
| MarketCache.SymbolTwice | finance_dashboard/views.py:56-65 | after one successful read, a second request for the same symbol is served from the cache with the same record |
| MarketCache.MacroTwice | finance_dashboard/services/analysis_service.py:20-130 | a second snapshot request is always a hit with the same snapshot, because a computed snapshot is never empty |
| MarketCache.GainersTwice | finance_dashboard/services/analysis_service.py:321-370 | an empty table is stored but is not a hit, so the next request fetches again |
| Models.Direction | finance_dashboard/models.py:178 | +1 iff the side is "BUY", otherwise -1 |
| Models.Pnl | finance_dashboard/models.py:176-179 | (exit - entry) times quantity for a BUY, (entry - exit) times quantity for any other side |
| Models.SwapSideNegatesPnl | finance_dashboard/models.py:178-179 | switching a trade between long and short negates its P&L |
| Models.Risk | finance_dashboard/models.py:182-187 | no figure iff the stop-loss is missing or zero; otherwise the P&L the trade would have if it exited at the stop-loss |
| Models.Step | finance_dashboard/models.py:145-148 | an error iff the new peak is zero; otherwise equity moves by the P&L, the peak becomes the larger of the old peak and the new equity, and the maximum drawdown becomes the larger of the old one and the new fall below the peak |
| Models.Run | finance_dashboard/models.py:140-148 | after any trades the peak is at least the equity and the starting amount, and the maximum drawdown is non-negative |
| Models.Drawdown | finance_dashboard/models.py:133-150 | zero without trades; never negative |
| Models.RunCoversPrefixes | finance_dashboard/models.py:140-148 | the maximum drawdown is at least the fall below the peak after every prefix of the trades |
| Models.RunAttainsMaximum | finance_dashboard/models.py:140-148 | the maximum drawdown is 0 or equals the fall after some prefix, so it is the largest fall |
| Models.DrawdownCoversPrefixes | finance_dashboard/models.py:133-150 | `max_drawdown` in percent is at least every prefix's fall below the peak |
| Models.MaxDrawdown | finance_dashboard/models.py:133-150 | the loop computes `Drawdown`, including its division-by-zero error |
| Models.RunStopsAtError | finance_dashboard/models.py:144-148 | once the loop has divided by a zero peak, later trades cannot undo the error |
| Models.PositiveCapitalRuns | finance_dashboard/models.py:140-148 | with positive capital the loop never divides by zero |
| Models.GainsOnlyNoDrawdown | finance_dashboard/models.py:144-150 | with positive capital and no losing P&L, equity stays at its peak and the drawdown is zero |
| Models.NoLosingTradeNoDrawdown | finance_dashboard/models.py:133-150 | a portfolio with positive capital and no losing trade has drawdown 0 |
| Models.DisplayName | finance_dashboard/models.py:20-24 | a six-character pair gets a slash after its third character (length 7, removing the slash gives the pair back); any other length is unchanged |
| Models.ExtensionIgnoresCase | finance_dashboard/models.py:91 | the image-extension test gives the same answer for a name and its upper-case form |
| Models.HasAttachment | finance_dashboard/models.py:83-84 | an insight has no attachment exactly when both its file and its image are empty |
| Models.IsImage | finance_dashboard/models.py:87-92 | an attached image always counts; otherwise an image iff there is a file with an image extension; an image implies an attachment |
| Models.FileName | finance_dashboard/models.py:95-100 | none iff nothing is attached; otherwise the text after the last `/` of the file's path, or of the image's when there is no file: it has no `/`, ends the path, and is preceded by `/` or is the whole path |
| Analytics.Wins | finance_dashboard/views.py:572 | the wins are positive and no more than the trades; `Analytics.WinsAndLossesFilter` fixes how often each one occurs |
| Analytics.Losses | finance_dashboard/views.py:573 | the losses are negative and no more than the trades; `Analytics.WinsAndLossesFilter` fixes how often each one occurs |
| Analytics.WinsAndLossesFit | finance_dashboard/views.py:572-573 | wins and losses together number at most the trades |
| Analytics.WinsAndLossesFilter | finance_dashboard/views.py:572-573 | each positive P&L occurs among the wins exactly as often as among the trades, and each negative one among the losses; no other value occurs in either |
| Analytics.WinRate | finance_dashboard/views.py:576 | the win rate lies in [0, 100] |
| Analytics.Expectancy | finance_dashboard/views.py:577 | the expectancy is never negative |
| Analytics.MeanSigns | finance_dashboard/views.py:577 | the mean win is positive and the mean loss negative |
| Analytics.ViewStep | finance_dashboard/views.py:583-587 | equity moves by the P&L, the peak becomes the larger of the old peak and the new equity, and the drawdown becomes the smaller of the old one and the new fall; a zero peak counts as no drawdown and leaves a non-positive drawdown unchanged |
| Analytics.ViewRun | finance_dashboard/views.py:579-587 | after any trades the peak is at least the equity and the starting amount, and the maximum drawdown is at most 0 |
| Analytics.ViewFall | finance_dashboard/views.py:585 | a zero peak gives a drawdown of 0 |
| Analytics.ViewRunCoversPrefixes | finance_dashboard/views.py:579-587 | the drawdown is at most the fall after every prefix of the trades |
| Analytics.ViewRunAttainsMinimum | finance_dashboard/views.py:579-587 | the drawdown is 0 or equals the fall after some prefix, so it is the deepest fall |
| Analytics.ViewRunMirrorsModel | finance_dashboard/views.py:579-587 | wherever the model's loop does not divide by zero, the analytics loop reaches the same equity and peak, with the drawdown negated |
| Analytics.ViewMaxDrawdown | finance_dashboard/views.py:579-587 | the loop computes the drawdown of `ViewRun` |
| Analytics.Risks | finance_dashboard/views.py:589 | the risk figures are exactly the defined stop-loss risks of the trades, no more of them than trades |
| Analytics.RisksCounted | finance_dashboard/views.py:589 | each defined risk occurs among the risk figures exactly as often as among the trades' risks |
| Analytics.AnalyticsOf | finance_dashboard/views.py:567-608 | all-zero figures without trades; otherwise the trade count, the win rate as the share of wins times 100 (in [0, 100]), the expectancy as the mean win minus the mean loss (at least 0), net P&L the sum of the trades' P&Ls, average risk the mean of the defined risks, and drawdown the analytics loop's, at most 0 |
| Analytics.AnalyticsList | finance_dashboard/views.py:552-612 | a single all-zero entry without portfolios, otherwise one entry per portfolio, in order |
| Analytics.PortfolioAnalyticsOf | finance_dashboard/views.py:567-610 | the loop body computes `AnalyticsOf` |
| Analytics.ComputePortfolioAnalytics | finance_dashboard/views.py:552-612 | the loop computes `AnalyticsList` |
| Analytics.MetricsOf | finance_dashboard/views.py:341-381 | winning plus losing trades are at most the total; the win rate lies in [0, 100]; a missing symbol or no trades gives the zero block ("N/A" for a missing symbol); otherwise the count, the total and average P&L, the numbers of wins and losses of the trades, and the win rate as winning over total times 100 |
| Analytics.CountTrades | finance_dashboard/views.py:348-358 | the loop's total, winning and losing counts are the sum, the number of wins and the number of losses |
| Analytics.DetailsMetrics | finance_dashboard/views.py:344-381 | the metrics block is `MetricsOf` |
| Symbols.ProviderSymbol | finance_dashboard/views.py:80 | the ticker always ends with `=X`; a pair that already does is unchanged, any other gets the suffix |
| Symbols.ProviderSymbolIdempotent | finance_dashboard/views.py:204-207 | adding the suffix twice is the same as adding it once |
| Symbols.StripSuffix | finance_dashboard/views.py:208 | removing the suffix never lengthens the name |
| Symbols.StripAppended | finance_dashboard/views.py:208 | removing the suffix undoes adding it to any name without `=` |
| Symbols.SupportedPairsRoundTrip | finance_dashboard/views.py:204-208 | every supported pair survives the round trip to its provider ticker and back |
| Symbols.SearchProviderSymbol | finance_dashboard/views.py:903-906 | only currency pairs get the provider suffix |
| Symbols.VolumeCategory | finance_dashboard/views.py:921-927 | High iff the mean volume is above 1,000,000, Medium iff in (100,000, 1,000,000], Low otherwise |
| Symbols.SearchChange | finance_dashboard/views.py:912-916 | the percentage move from a non-zero previous close, else 0 |
| Symbols.RealSearchData | finance_dashboard/views.py:898-944 | the fixed fallback record iff the provider raised or returned nothing; otherwise the latest close, the one-day change, the last five closes and the volume category |
| Symbols.Found | finance_dashboard/views.py:956-973 | each hit has the kind of the list searched |
| Symbols.FoundConcat | finance_dashboard/views.py:956-973 | the hits of a list are those of its parts, in order |
| Symbols.FoundSingle | finance_dashboard/views.py:957-963 | one symbol is a hit iff it contains the query; with `FoundConcat` this fixes the hits and their order on every list |
| Symbols.SearchList | finance_dashboard/views.py:956-973 | one search loop collects the hits of its list in order |
| Symbols.SearchView | finance_dashboard/views.py:946-976 | the results for the upper-cased query: currency hits, then stock hits |
| Symbols.FoundMembers | finance_dashboard/views.py:956-973 | a symbol is among one list's hits iff it is in the list and contains the query |
| Symbols.SearchFindsExactly | finance_dashboard/views.py:947-973 | an empty query finds nothing; otherwise exactly the supported symbols containing the query are found |
| Symbols.SearchForexFirst | finance_dashboard/views.py:954-973 | every currency result comes before every stock result |
| Symbols.RefInsightId | finance_dashboard/views.py:530-534 | an id iff the reference contains "Insight #" and the rest, stripped, is all digits, and then the id is those digits' value |
| Symbols.ResolveRefInsight | finance_dashboard/views.py:527-538 | the trade refers to an insight iff its reference names an id that exists |
| Symbols.RefRoundTrip | finance_dashboard/views.py:855 | a reference written as "Insight #" followed by an id is read back as that id |
| Symbols.RefWithoutMarker | finance_dashboard/views.py:530 | a reference without the marker names no insight |
| Forms.CleanInsight | finance_dashboard/forms.py:173-189 | rejected for two attachments iff both are attached; for a too-large file or image iff it alone is attached and above 5 MiB; accepted iff none of these applies, and then the data are returned unchanged |
| Forms.LimitIsInclusive | finance_dashboard/forms.py:183-187 | an upload of exactly 5 MiB is accepted and one byte more is rejected |
| Forms.CleanTradeInsight | finance_dashboard/forms.py:216-223 | rejected iff there is neither an existing insight nor a new title; otherwise the data are returned unchanged |
| Forms.SymbolChoices | finance_dashboard/forms.py:107-141 | never empty; "currency" gives the stored pairs as (pair, pair) when there are any, else the seven fallback pairs; "stock" the seven stocks; any other category the four other choices |
| Forms.FallbackLabelsAreDisplayNames | finance_dashboard/forms.py:116-124 | every fallback currency label is its pair's display name |
| Forms.ChoicesMatchSearch | finance_dashboard/forms.py:116-134 | the fallback currencies are the searchable pairs in another order, and the stock choices are the searchable stocks in order |

## Left out

- Network, retries and time are left out. Every yfinance, FRED and CFTC call, the `tenacity` retry and wait timing, and the cache's expiry time are replaced by the provider's answer passed in as a parameter.
- The indicator library's arithmetic (SMA, EMA, RSI, MACD, Bollinger, stochastic, ATR) and the standard deviation of returns are floating-point numerics. Their results are inputs: `Technical.LatestRow` and `Gainers.History.volatilityPct`.
- Python floats and Decimals are both `real`, so overflow, NaN arithmetic and binary rounding are not modelled. Closes and volumes are taken to be finite.
- Models.Pnl: rounding to two places with half-even Decimal rounding is not modelled. The same holds for `Models.Risk`, `Models.Drawdown` and every `round(x, n)` in the getters and the analytics.
- Gainers.SortByChange: sorts on the unrounded daily change. The source sorts on the change already rounded to two places, so two changes that round alike (0.501 and 0.502) keep their input order there, while the model puts the larger first; stability holds among exactly equal unrounded changes.
- Macro.PercentMove: the source computes inf or NaN when the previous close is zero. The model records that as a missing change rather than a value.
- Synthesizer.Alert: the value in "High VIX (…)" and "Low VIX (…)" is written by an uninterpreted `showReal`, standing for Python's `str` of a float.
- Technical.TechnicalAnalysis: the payload omits the price change, the indicator histories and the date labels, which only feed the charts. An exception while the payload is being built is not modelled.
- Analytics.MetricsOf: the figures are reals, not the formatted strings the page shows (`"0%"`, one or two decimals).
- Text.Upper, Text.Lower and Text.IsDigits cover ASCII letters and digits only, not Unicode case mapping or Unicode digits.
- The Django ORM is left out. Querysets are given as sequences: trades already in date order, and the details trades already filtered by symbol. Insight lookup by id is a set of existing ids.
- Dictionary key order of the snapshot and of the JSON responses is not modelled; the snapshot is a map.
- The gainers table and the search data assume the provider's frame has a volume column. Without one, `get_real_search_data` takes the mean volume as 0 and so reports "Low"; the model has no such frame.
- NaN observations in the FRED series are not modelled.
- Templates, views that only render or redirect, authentication, file deletion, the populate command, URL routing and the browser scripts are outside the modelled core.
- The sparkline and chart-data helpers, and the synthetic random or sine fallback series, are fetch-and-reshape code with no decision logic beyond the suffix rule, which is modelled.
- The `required = False` loop in the insight form's constructor only changes form widgets and is not modelled.
