# Precious-metals portfolio: spot-price engines and ledger, modelled in Dafny

The repository holds three versions of a spot-price endpoint for gold (XAU)
and silver (XAG), plus a browser-side portfolio ledger.

- **server.js**: an Express server.
  - It asks every configured provider for a quote and sorts the outcomes
    into ok quotes and provider errors.
  - It takes the median of the finite positive prices, keeps the quotes
    whose fractional deviation from that median is within a per-metal band,
    and answers with the **mean** of the kept prices. There is no fallback.
  - Answers are cached per metal in a map with a TTL, evicted lazily.
- **spot.js**: a Cloudflare Pages function.
  - It runs two providers in turn; the second is skipped without an API key.
  - It takes the median, applies a 1.5 % band, and takes the **median** of
    the survivors.
  - When the band rejects everything, it falls back to the unfiltered
    quotes. With no quote at all it answers 502 with a failure payload.
  - Payloads are kept in an edge cache for 30 s.
- **functions/api/spot.js**: a second Pages function.
  - Every provider is tagged as a `retail` or a `market` lane.
  - Each lane takes the price of the last fulfilled provider of its kind.
  - The main price is the median of the present lanes.
  - The file also holds the adapters for GoldPrice, Stooq (CSV "Close"
    column), Metals-API (rate inversion) and GoldAPI.io (HTTP 429 detection).
- **app.js**: the portfolio page.
  - It keeps an owned-state map per holding (units, total paid, last known
    price), draft inputs, and a purchase history.
  - The ledger operations are apply-purchase, update-price, delete-record
    (which reverses its effect, clamped at zero) and undo-last.
  - Helpers clean keystrokes and parse numbers leniently.
  - Spot prices fetched from the backend are merged into a cached spot
    object.
  - It computes per-row and total figures for the holdings table.

## How the model is organised

Prices are Dafny `real`, so arithmetic is exact. A JavaScript number that is
NaN, infinite, `null` or missing is `Option<real>`'s `None`. Provider
outcomes, HTTP statuses, response bodies that are already decoded, clocks,
generated ids and ISO timestamps are all parameters.

| module | file | models |
|---|---|---|
| `Basics` | basics.dfy | Option/Result, filter, metal codes, `trim`/`toUpperCase`, `split`/`join`, `indexOf`, ISO-string ordering |
| `Stats` | stats.dfy | the three copies of the median function, the mean, and the band predicate |
| `ExpressAggregator` | express_aggregator.dfy | server.js: partition loop, aggregation, `/api/spot` handler, TTL cache (class `SpotServer`) |
| `PagesSpot` | pages_spot.dfy | spot.js: provider loop, band pass, fallback, failure payload, request handler, edge cache (class `EdgeCache`) |
| `TwoLaneAdapters` | two_lane_adapters.dfy | functions/api/spot.js: the four provider adapters |
| `TwoLaneSpot` | two_lane_spot.dfy | functions/api/spot.js: provider list, report loop, lanes, reply |
| `PortfolioInput` | portfolio_input.dfy | app.js: keystroke cleaners, lenient parsers, gain/loss style |
| `PortfolioLedger` | portfolio_ledger.dfy | app.js: the ledger as specification functions on a `Ledger` value, and class `PortfolioStore` whose methods update it in place |
| `PortfolioFigures` | portfolio_figures.dfy | app.js: seed totals, seeding, spot fetch and merge (class `SpotCacheStore`), holdings-table totals |

Places where the model follows the code over the prose description of the
repository:

- spot.js caches the failure payload too (spot.js:56), and every cache hit
  is answered with status 200 (spot.js:20-22). So a repeated request within
  30 s answers a failure payload with 200, where the first answer was 502.
- Undo removes the newest record of the holding by calling Delete with its
  purchase id. So it removes *every* record with that id and reverses the
  *last* one with that id.
- Delete rewrites the history whenever the purchase id exists, even when its
  holding is missing from the owned state. In that case no owned entry
  changes.
- In the spot refresh, the "Sources used" text is replaced as soon as *one*
  metal reports both counts. It is not replaced when neither does.

## Model

| member | source | states |
|---|---|---|
| Basics.ParseMetalParam | server.js:453-458 | the metal is accepted only when the upper-cased, trimmed query text is the metal's code; an absent parameter is refused |
| Basics.ParseMetalParamAccepts | server.js:453-458 | every text that trims and upper-cases to "XAU" or "XAG" is accepted as that metal |
| Basics.ParseMetalCodeRoundTrip | server.js:455 | reading a metal's own code back gives that metal |
| Basics.UpperTrimCommute | server.js:453 | upper-casing and trimming commute, so server.js (upper then trim) and spot.js (trim then upper) read the same metal |
| Basics.IndexOf | functions/api/spot.js:240-243 | -1 exactly when the column name is absent, otherwise the first position that holds it |
| Basics.SplitJoinRoundTrip | functions/api/spot.js:237-238 | splitting a line on ',' and joining it again gives back the line |
| Basics.JoinSplitRoundTrip | functions/api/spot.js:237-238 | joining comma-free fields with ',' and splitting again gives back the fields |
| Basics.StrLessTransitive | app.js:379-383 | the timestamp comparison used by undo is transitive |
| Basics.StrLessTotal | app.js:379-383 | of two different timestamp strings one is smaller |
| Stats.Median | server.js:75-83 | the median is null exactly when there are no values |
| Stats.MedianWithinRange | server.js:75-83 | for a non-empty list the median exists and lies between the smallest and the largest value |
| Stats.MedianPermutationInvariant | spot.js:281-301 | the median depends only on the multiset of values: sorting a copy makes the input order irrelevant |
| Stats.MedianOfOne | spot.js:281-301 | the median of a single value is that value (odd middle rule) |
| Stats.MedianOfTwo | functions/api/spot.js:352-364 | the median of two values is their average (even middle rule) |
| Stats.SortAscending | server.js:76 | the sorted copy is ordered and a permutation of the input |
| Stats.Mean | server.js:85-90 | the mean is null exactly when there are no values |
| Stats.MeanWithin | server.js:85-90 | the mean of values that all lie in [lo, hi] lies in [lo, hi] |
| Stats.MedianInBand | spot.js:90-96 | the median of prices that all lie within the band around a centre lies within that band |
| ExpressAggregator.PartitionOutcomes | server.js:354-367 | the loop's three arrays are the ok quotes, the errors and the ok prices, in provider order |
| ExpressAggregator.PartitionSizes | server.js:354-367 | ok quotes plus errors equal the number of providers |
| ExpressAggregator.PartitionPlacement | server.js:339-365 | a returned price becomes an ok quote, a declined provider (null result) a skipped error with the fixed message, a thrown error a non-skipped error carrying its message |
| ExpressAggregator.OkDetailsFromReturned | server.js:354-367 | every ok quote comes from a provider that returned that price |
| ExpressAggregator.FractionalDeviation | server.js:92-95 | null exactly when the value or centre is missing or the centre is 0; otherwise the result times the centre is the absolute difference, and it is non-negative for a positive centre |
| ExpressAggregator.ValidPrices | server.js:371 | exactly the finite positive prices of the ok quotes are kept |
| ExpressAggregator.ComputeMean | server.js:85-90 | the accumulator loop computes the mean of its values |
| ExpressAggregator.ClassifyQuotes | server.js:386-401 | the loop builds exactly the accepted and rejected lists of the classification, in input order |
| ExpressAggregator.AggregateQuotes | server.js:370-415 | the method computes the aggregate of the specification: median, accepted and rejected lists, mean of the accepted prices, counts |
| ExpressAggregator.ClassifySizes | server.js:389-401 | every ok quote lands in exactly one of accepted and rejected |
| ExpressAggregator.AcceptedWithinBand | server.js:395-397 | an accepted quote came from the input and its deviation from the median is within the band |
| ExpressAggregator.RejectedReasons | server.js:390-400 | a rejected quote has either no deviation ("invalid deviation") or a deviation beyond the band ("outlier") |
| ExpressAggregator.WithinBandAccepted | server.js:395-397 | a quote whose deviation is within the band is in the accepted list |
| ExpressAggregator.NoValidPrice | server.js:371-384 | with no finite positive price: null price and median, zero used, all ok quotes counted, empty lists |
| ExpressAggregator.AcceptedPricesInBand | server.js:389-401 | every accepted price lies in [M(1-b), M(1+b)] for the positive median M |
| ExpressAggregator.AggregateWithinBand | server.js:403-415 | no fallback: the price exists exactly when something was accepted, and then it is within the band around the positive median |
| ExpressAggregator.PayloadOf | server.js:472-483 | the payload carries the metal, the band, the timestamp and the provider errors; ok count plus error count equals the number of providers |
| ExpressAggregator.SpotServer.OutlierBand | server.js:466 | gold uses the gold band, silver the silver band |
| ExpressAggregator.SpotServer.TryGetCache | server.js:52-63 | a hit happens exactly when an entry exists whose age is within the TTL; a hit returns its payload and changes nothing; a miss removes that metal's entry and no other |
| ExpressAggregator.SpotServer.PutCache | server.js:65-70 | the metal's entry is replaced by the payload stamped with the current time; other metals are untouched |
| ExpressAggregator.SpotServer.PutThenGet | server.js:52-70 | a put followed by a get within the TTL returns the same payload |
| ExpressAggregator.SpotServer.HandleSpot | server.js:452-488 | a bad metal gives a 400 with the fixed message and the cache untouched; a fresh entry is answered as it is; otherwise the built payload is answered and stored |
| ExpressAggregator.SpotServer.BuildPayload | server.js:466-483 | the payload built with the metal's band from the settled results |
| PagesSpot.ParseMetal | spot.js:6-15 | the metal is accepted exactly when the trimmed, upper-cased text is "XAU" or "XAG" |
| PagesSpot.ParseMetalAgreesWithServer | spot.js:6-15 | spot.js accepts exactly the metals server.js accepts |
| PagesSpot.CacheKey | spot.js:18-22 | the key is "spot:" followed by the metal code |
| PagesSpot.CacheKeyInjective | spot.js:18-22 | the two metals never share a cache key |
| PagesSpot.ProvidersFor | spot.js:27-38 | two providers in order; gold-api.com is always enabled, metalpriceapi.com only when the key is set |
| PagesSpot.MetalPriceApiAttempt | spot.js:154-161 | a key that trims to empty makes the adapter raise its own missing-key Error before any request; otherwise the exchange decides |
| PagesSpot.BlankKeyIsNotSkipped | spot.js:27-38 | a whitespace-only key enables the provider, and it then fails with the adapter's own missing-key Error rather than being skipped |
| PagesSpot.ErrorText | spot.js:224-229 | an Error thrown by the adapter itself (spot.js:141, 148, 160, 175, 182, 190) is reported as "Error: " followed by its message |
| PagesSpot.FailureText | spot.js:223-229 | the reported text of a failed call: "Error: " and the message for the adapter's own Error; the full text of any other rejection (a TypeError from `fetch`, a SyntaxError from `json()`) unchanged |
| PagesSpot.FetchAllProviders | spot.js:200-236 | the sequential loop yields exactly the accepted entries and the provider errors of the specification, in order |
| PagesSpot.FetchAllSizes | spot.js:200-236 | each provider yields exactly one entry: accepted entries plus errors equal the number of providers |
| PagesSpot.FetchAllPlacement | spot.js:200-236 | a disabled provider gives a skipped error; the adapter's own Error gives a non-skipped "Error: " + message; any other rejection gives a non-skipped error with its own text; a price gives an accepted entry with deviation 0 |
| PagesSpot.FirstMedian | spot.js:66 | the first median is positive and lies between the smallest and largest accepted price |
| PagesSpot.Rescore | spot.js:73-80 | a rescored entry keeps its source and price; its deviation times the median is the absolute difference |
| PagesSpot.SplitByBand | spot.js:69-87 | the band loop builds exactly the kept and dropped lists of rescored entries |
| PagesSpot.BandSplitSizes | spot.js:69-87 | each accepted entry is kept or dropped, never both |
| PagesSpot.BandSplitMembership | spot.js:78-86 | a deviation within the band keeps the entry, one beyond it drops it |
| PagesSpot.UsedOf | spot.js:90 | the list the final median is taken from is never empty for a non-empty input |
| PagesSpot.FailurePayload | spot.js:303-316 | null prices, zero counts, empty accepted and rejected lists, provider errors passed through |
| PagesSpot.ReplyStatus | spot.js:49-60 | with no accepted quote the status is 502 and the payload is the failure payload; otherwise 200 |
| PagesSpot.NonEmptyYieldsPrice | spot.js:96-106 | a non-empty input always yields a price equal to the median field, and used count equals fetched-ok count equals the number of used entries |
| PagesSpot.UsedPricesFromAccepted | spot.js:88-94 | every price the final median is taken from is an accepted price |
| PagesSpot.PriceWithinAcceptedRange | spot.js:96 | the final price lies between the smallest and largest accepted price |
| PagesSpot.KeptPricesInBand | spot.js:78-86 | every kept price lies within the band around the first median |
| PagesSpot.PriceWithinBandWhenKept | spot.js:90-96 | when the band kept something, the final price lies within the band around the first median |
| PagesSpot.FallbackToUnfiltered | spot.js:90 | when the band kept nothing, all accepted entries are used and all are reported as rejected |
| PagesSpot.SingleQuoteUnchanged | spot.js:90-96 | a single quote's price is returned unchanged |
| PagesSpot.EdgeCache.Read | spot.js:242-257 | a read finds a payload exactly when one is stored under the key |
| PagesSpot.EdgeCache.Write | spot.js:259-275 | a write stores the payload under the key with its TTL and touches nothing else |
| PagesSpot.OnRequestGet | spot.js:3-124 | a bad metal gives 400 with the cache untouched; a cached payload is answered with 200; otherwise the fresh reply is answered and stored for 30 s |
| PagesSpot.Fetch | spot.js:27-112 | the fresh reply of the specification for the given provider outcomes |
| TwoLaneAdapters.KindName | functions/api/spot.js:196 | a lane is named "retail" or "market" |
| TwoLaneAdapters.FromGoldPriceOrg | functions/api/spot.js:160-199 | HTTP failure and empty-items errors come first; success exactly when the metal's price is finite and positive; it is tagged GoldPrice, retail |
| TwoLaneAdapters.StooqSymbol | functions/api/spot.js:206-214 | the symbol is the lower-cased code followed by "usd" |
| TwoLaneAdapters.SplitLines | functions/api/spot.js:231 | one line per newline-separated piece; every piece but the last loses one trailing carriage return, the last is kept as it is |
| TwoLaneAdapters.StooqClose | functions/api/spot.js:231-250 | fewer than two lines give the not-enough-lines error, a header without "Close" the missing-column error, and otherwise success exactly when the data row's field under the first "Close" reads as a positive number, which is the result; every other case gives the invalid-Close error |
| TwoLaneAdapters.TrimAround | functions/api/spot.js:231 | trimming removes exactly the white space around text that has none at either end |
| TwoLaneAdapters.FromStooq | functions/api/spot.js:225-256 | HTTP failure first; success exactly when the CSV yields a close; it is tagged Stooq, market |
| TwoLaneAdapters.StooqReadsClose | functions/api/spot.js:231-250 | a header line whose first "Close" field is at k and a data line whose field k reads as a positive number, joined by `\n` or `\r\n` and with any white space around the text, yield that number |
| TwoLaneAdapters.FieldLines | functions/api/spot.js:237-238 | comma-free fields without line breaks, joined with ',', give lines without line breaks that split back into those fields |
| TwoLaneAdapters.PaddedTwoLines | functions/api/spot.js:231 | two lines joined by `\n` or `\r\n` and padded with white space trim and split back into those two lines |
| TwoLaneAdapters.FromMetalsApi | functions/api/spot.js:263-308 | 429 gives the rate-limit error before the generic HTTP error; a success is the inverse of a positive rate and is tagged Metals-API, market |
| TwoLaneAdapters.MetalsApiInverts | functions/api/spot.js:291-306 | a positive rate for the metal always yields the price 1/rate |
| TwoLaneAdapters.FromGoldApiIo | functions/api/spot.js:314-346 | 429 gives the rate-limit error before the generic HTTP error; success exactly when the price is finite and positive |
| TwoLaneAdapters.RateLimitIsDistinct | functions/api/spot.js:277-282 | a 429 is never reported as the generic HTTP failure |
| TwoLaneSpot.KindOf | functions/api/spot.js:14-67 | a provider is in the retail lane exactly when it is GoldPrice |
| TwoLaneSpot.ResolveGoldApiKey | functions/api/spot.js:41-67 | a non-blank environment key is used trimmed; otherwise there is no key |
| Basics.BlankIffTrimsToEmpty | functions/api/spot.js:22-27 | text counts as blank exactly when trimming leaves it empty |
| TwoLaneSpot.FallbackNeverFires | functions/api/spot.js:38-67 | a GoldAPI.io key exists exactly when the environment key is non-blank: the hardcoded fallback equals its own placeholder and never passes |
| TwoLaneSpot.AssembleProviders | functions/api/spot.js:14-67 | the conditional pushes build exactly the specified provider list |
| TwoLaneSpot.ProviderListShape | functions/api/spot.js:14-67 | GoldPrice then Stooq always; Metals-API exactly when its key is non-blank; GoldAPI.io last exactly when its key is non-blank |
| TwoLaneSpot.Settle | functions/api/spot.js:69-73 | a success is fulfilled with its quote; a failure is rejected with "Error: " and its message |
| TwoLaneSpot.ReportFor | functions/api/spot.js:80-110 | a fulfilled provider reports name, kind and price with ok true; a rejected one reports "(unknown)" name and kind, ok false and its error |
| TwoLaneSpot.Report | functions/api/spot.js:80-110 | one report entry per provider, in provider order |
| TwoLaneSpot.ReportLoop | functions/api/spot.js:80-110 | the loop's lanes are the last fulfilled prices of each kind, and its report is the specified report |
| TwoLaneSpot.LastPriceNone | functions/api/spot.js:93-99 | a lane is empty exactly when no fulfilled provider feeds it |
| TwoLaneSpot.LastPriceIsLastWriter | functions/api/spot.js:93-99 | the lane holds the price of the last provider that feeds it |
| TwoLaneSpot.LastPriceHasWriter | functions/api/spot.js:93-99 | a lane's value always comes from a feeding provider with no later one |
| TwoLaneSpot.Collected | functions/api/spot.js:112-126 | retail then market, each only when finite and positive; length 0 to 2 |
| TwoLaneSpot.Summarize | functions/api/spot.js:128-153 | the reply carries the metal, the full report and the timestamp |
| TwoLaneSpot.NothingCollected | functions/api/spot.js:128-140 | nothing collected: all price fields null, counts 0, full report |
| TwoLaneSpot.MainPriceFromLanes | functions/api/spot.js:142-153 | the main price is the single lane value or the average of the two; the lane fields are echoed; used count equals fetched-ok count equals the number collected |
| TwoLaneSpot.Invoke | functions/api/spot.js:69-73 | a thrown fetch rejects with its error text and a failed HTTP status rejects; a fulfilled result carries the provider's own name and lane and a positive price |
| TwoLaneSpot.SettledFor | functions/api/spot.js:69-73 | one settled outcome per provider, in order, each that provider's adapter applied to its exchange |
| TwoLaneSpot.SettledKinds | functions/api/spot.js:14-73 | of the settled results only GoldPrice's (the first) can be a retail quote, every other fulfilled one is a market quote, all prices positive |
| TwoLaneSpot.RetailLane | functions/api/spot.js:93-99 | when only the first result can feed retail, the retail lane is its price if it was fulfilled and empty otherwise |
| TwoLaneSpot.MarketLane | functions/api/spot.js:93-99 | when every result after the first feeds market, the market lane is empty exactly when they all failed, else the price of the last that succeeded |
| TwoLaneSpot.LanesOfSummary | functions/api/spot.js:93-153 | the body's retail and market fields are the lanes of the settled results, stated per result |
| TwoLaneSpot.ReplyLanes | functions/api/spot.js:69-153 | the reply's retail price is GoldPrice's when it succeeded and null otherwise; its market price is null exactly when Stooq, Metals-API and GoldAPI.io all failed, and otherwise the price of the last of them that succeeded |
| TwoLaneSpot.ReportCoversProviders | functions/api/spot.js:69-110 | the reply's report has one entry per listed provider, each the report of that provider's adapter applied to its exchange |
| TwoLaneSpot.OnRequest | functions/api/spot.js:2-154 | a bad metal gives 400 with the fixed message; otherwise status 200 with the reply body built from the listed providers' adapters applied to their exchanges |
| PortfolioInput.CleanDigits | app.js:448-451 | the cleaned text holds exactly the digits of the input, in order |
| PortfolioInput.CleanDigitsIdempotent | app.js:448-451 | cleaning twice is cleaning once |
| PortfolioInput.CleanDigitsKeepsDigitText | app.js:448-451 | text of digits only passes unchanged |
| PortfolioInput.KeepFirstDot | app.js:470-476 | a '.' remains exactly when there was one |
| PortfolioInput.KeepFirstDotSpec | app.js:470-476 | text without a '.' is unchanged; otherwise the text up to and including the first '.' is kept as it is and that '.' stays at the same place; at most one '.' survives; the digits are kept in order |
| PortfolioInput.KeepFirstDotNoOp | app.js:470-476 | text with at most one '.' passes unchanged |
| PortfolioInput.CleanDecimal | app.js:467-478 | the result is the digits before the input's first '.', that '.', and the digits after it, or only the digits when there is no '.'; hence only digits and '.' remain, at most one '.', all digits in order |
| PortfolioInput.CleanDecimalShape | app.js:467-478 | the two cleaning steps give the digits before the first '.', the '.', and the digits after it |
| PortfolioInput.CleanDecimalIdempotent | app.js:467-478 | cleaning twice is cleaning once |
| PortfolioInput.ParseDecimalOrZero | app.js:410-415 | non-negative; a finite non-negative number is kept, anything else becomes 0 |
| PortfolioInput.ParseIntegerOrZero | app.js:417-423 | the floor of a finite non-negative number, 0 otherwise |
| PortfolioInput.GainLossClass | app.js:425-431 | "gain-positive" exactly for positive, "gain-negative" exactly for negative, no class for zero or non-finite |
| PortfolioLedger.DraftFor | app.js:194-199 | a holding without a draft uses the default draft (0 units, price 0) |
| PortfolioLedger.PurchaseUnits | app.js:662-665 | the floor of a positive number of units, 0 otherwise |
| PortfolioLedger.PositivePrice | app.js:663-666 | the price when it is finite and positive, 0 otherwise |
| PortfolioLedger.CreatePurchaseRecord | app.js:291-302 | the record carries its ids, time, units and price, and its total cost is units times price |
| PortfolioLedger.ClampAtZero | app.js:354-355 | the result is non-negative, never below the input, and equal to a non-negative input |
| PortfolioLedger.LastWithPurchaseId | app.js:329-339 | no record is found exactly when no record has the id; a found record is in the history and has the id |
| PortfolioLedger.PortfolioStore.constructor | app.js:238-289 | the store starts from the loaded state |
| PortfolioLedger.PortfolioStore.ApplyPurchase | app.js:655-697 | the new state is the specified purchase effect on the old state |
| PortfolioLedger.PortfolioStore.UpdateMarketPrice | app.js:699-721 | the new state is the specified price update of the old state |
| PortfolioLedger.ScanForPurchase | app.js:327-335 | the scan yields the last record with the id and the history without every record carrying that id |
| PortfolioLedger.FindNewest | app.js:366-384 | the loop settles on the specified newest record of the holding |
| PortfolioLedger.PortfolioStore.DeleteRecord | app.js:321-362 | the new state is the specified deletion applied to the old state |
| PortfolioLedger.PortfolioStore.UndoLast | app.js:365-391 | the new state is the specified undo of the old state |
| PortfolioLedger.ApplyPurchaseEffect | app.js:655-697 | no change unless units > 0, price > 0 and the holding exists; then units +u, total paid +u*p, last price p, one record with cost u*p appended, draft units reset, draft price kept, other holdings unchanged |
| PortfolioLedger.UpdateMarketPriceEffect | app.js:699-721 | only the holding's last known price changes, and only to a positive draft price |
| PortfolioLedger.WithoutPurchaseMembers | app.js:329-335 | the history keeps exactly the records with another id |
| PortfolioLedger.DeleteRewritesHistory | app.js:321-362 | no change without owned state or for an unknown id; otherwise every record with the id is removed and the history shrinks |
| PortfolioLedger.DeleteReversesHolding | app.js:341-359 | the holding's units and total paid drop by the record's units and cost, clamped at 0; its last price and other holdings are unchanged |
| PortfolioLedger.OperationsKeepNonNegative | app.js:655-721 | all four operations keep units, total paid and last prices non-negative |
| PortfolioLedger.NewestIsLatest | app.js:368-384 | no record is chosen exactly when the holding has none; the chosen one belongs to the holding and no record of the holding has a later timestamp |
| PortfolioLedger.NewestKeepsEarliestTie | app.js:379-383 | among equal newest timestamps the earliest record is chosen |
| PortfolioLedger.DeleteFreshRecord | app.js:321-362 | deleting a just-appended record with a fresh id restores the earlier history |
| PortfolioLedger.NewestAfterAppend | app.js:365-391 | a record appended with a later timestamp than its holding's others is the one undo picks |
| PortfolioLedger.ApplyThenUndoRestores | app.js:365-391 | applying a purchase and undoing it restores the history, units and total paid, when the new record is the holding's newest |
| PortfolioFigures.UnitsOf | app.js:143-158 | a seed purchase counts its units only when they are finite and positive |
| PortfolioFigures.PaidOf | app.js:160-188 | the explicit total when finite and non-negative, else units times price when usable, else nothing; never negative |
| PortfolioFigures.SeedTotalsBounds | app.js:143-188 | both sums are non-negative and at least every single term |
| PortfolioFigures.NoUnitsNoTotal | app.js:143-158 | no usable units give zero units |
| PortfolioFigures.TotalUnits | app.js:143-158 | a non-array gives 0; otherwise the loop computes the specified sum; never negative |
| PortfolioFigures.TotalPaid | app.js:160-188 | a non-array gives 0; otherwise the loop computes the specified sum; never negative |
| PortfolioFigures.DefaultOwned | app.js:222-236 | seeded units and total paid are the seed sums; the last price is positive exactly when the catalog default is |
| PortfolioFigures.SeededOwned | app.js:255-268 | the seeded map has an entry for every catalog holding, only catalog keys, and no negative field |
| PortfolioFigures.EnsureSeeded | app.js:255-268 | existing owned state is left alone; missing state is seeded from the catalog |
| PortfolioFigures.FetchSpotForMetal | app.js:551-582 | a bad status gives "HTTP <status>"; a missing or non-positive price gives the invalid-payload error; success exactly when the status is ok and the price positive |
| PortfolioFigures.SettledFetch | app.js:585-588 | a rejected fetch is reported as "Error: " and its message |
| PortfolioFigures.SourcesPart | app.js:608-622 | a metal contributes a sources text exactly when it succeeded with both counts |
| PortfolioFigures.RefreshErrors | app.js:636-645 | one error line per failed metal, gold first, with the metal's prefix |
| PortfolioFigures.SpotCacheStore.constructor | app.js:489-514 | the store starts from the loaded spot cache |
| PortfolioFigures.SpotCacheStore.Refresh | app.js:584-649 | the cache is merged and kept only when at least one metal succeeded; the returned errors are the specified ones |
| PortfolioFigures.MergeChangesOnlyFulfilledPrices | app.js:596-617 | a metal's cached price changes only when its fetch succeeded, and then to the fetched price |
| PortfolioFigures.InvalidPriceKeepsCachedPrice | app.js:562-565 | a missing or non-positive price is a rejection and keeps the cached price |
| PortfolioFigures.MergeSourcesText | app.js:602-630 | the sources text is replaced exactly when some metal reports both counts, and then joins the parts with " \| " |
| PortfolioFigures.MergeTimestamp | app.js:598-625 | a changed timestamp comes from a fulfilled reading (silver overrides gold); with both fetches rejected the old one is kept |
| PortfolioFigures.SpotPricePerOunce | app.js:524-539 | gold holdings read the gold price, silver the silver price, other codes none |
| PortfolioFigures.OuncesPerUnit | app.js:541-545 | a finite positive ounce weight is used, 0 otherwise |
| PortfolioFigures.SpotEstimatePerUnit | app.js:937-940 | an estimate exists exactly when spot and ounces are positive, and it is their product |
| PortfolioFigures.RowFor | app.js:913-955 | gain is value minus total paid; the spot figures exist exactly when the spot estimate does |
| PortfolioFigures.HoldingsTotals | app.js:867-974 | the accumulator loop computes the specified totals over the catalog |
| PortfolioFigures.TotalsBalance | app.js:957-974 | rows with and without a spot estimate add up to the number of holdings; total gain is total value minus total paid, for market and for spot figures |
| PortfolioFigures.RowIncluded | app.js:963-974 | a row with a spot estimate is counted as included, one without as missing |
| PortfolioFigures.NoRowMissing | app.js:963-974 | with both spot prices positive and every weight positive, every row is included |

## Left out

- Network fetches, HTTP bodies and JSON decoding are left out. Provider
  outcomes, statuses and decoded fields are parameters.
- The individual server.js providers (server.js:114-330) and
  `GetProvidersArray` are left out: they are HTTP adapters. Their outcomes
  enter as `ProviderResult` values.
- `Promise.all` and `Promise.allSettled` are concurrency. Only the ordered
  settled results are modelled.
- Express plumbing, CORS, `/api/health` and `listen` are left out.
  Environment reads become parameters: the TTL, the bands and the API keys.
- IEEE doubles are not modelled; prices are exact reals. As a consequence
  the Metals-API "invalid inverted price" check can never fire in the
  model: 1/rate of a positive real is always finite and positive.
- `Number(text)` and `Number.isFinite` are abstracted as `Option<real>`
  inputs, for Stooq through a `toNumber` parameter.
- Basics.ToUpper: upper-cases ASCII letters only; other Unicode case
  mappings are not modelled.
- Basics.Trim: trims ASCII whitespace, no-break space and the byte-order
  mark. Other Unicode space characters are not modelled.
- Numbers are rendered as text (`NatToString`) only for natural numbers:
  HTTP status codes, and the sources counts `usedCount` and
  `fetchedOkCount` read from a spot payload, which PortfolioFigures takes
  as `Option<nat>`. Negative or fractional counts, and their JavaScript
  text, are not modelled.
- Basics.StrLess: compares characters by code point, where JavaScript
  compares UTF-16 code units. The two orders differ only on characters
  beyond U+FFFF, which ISO timestamps do not contain.
- The Cloudflare `caches.default` expiry and its swallowed exceptions are
  not modelled. PagesSpot.EdgeCache records the TTL with each entry but
  never expires one.
- localStorage load/save, `JSON.parse` recovery, `ResetAllSavedData`, and
  null or non-finite values inside stored state are left out. The stored
  state enters as a `Ledger` value.
- The catch block of spot.js:115-123, which answers 500 with the error's
  text, is left out: every modelled step is total.
- `CommitAllRenderedInputs_ToDraftStorage` and
  `ApplyAllChanges_ForAllHoldings` (app.js:738-776) are left out: they read
  DOM inputs. Their per-holding effect is ApplyPurchase and
  UpdateMarketPrice.
- DOM creation, event handlers, rendering, `FormatCurrency`,
  `FormatUtcIsoToLocalReadable` and the header text are left out.
- sw.js (service worker) is not part of this model.
- functions/api/testfetch.js, a single network call, is not part of this
  model.
- `Date.now()`, random purchase ids and `toISOString` become parameters.
- PortfolioFigures.TotalsOf: requires every catalog holding to have an
  owned entry, which EnsureSeeded establishes. A render with a missing
  entry, which would throw in the page, is not modelled.
