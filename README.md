# Hyper-Alpha-Arena backend rules, modelled in Dafny

Hyper-Alpha-Arena is an AI-trading arena on the Hyperliquid perpetual-futures exchange. The
repository calls itself a trading-dashboard front-end, but the files this model follows are its
Python FastAPI backend. Where that description and the code disagree, the model follows the code.
The model covers the decision rules, state changes and list handling under the HTTP, ORM, exchange
and LLM plumbing:

- `market_regime.dfy` (`MarketRegime`) models `backend/services/market_regime_service.py`. It covers:
  - the three-way direction vote;
  - the clamped confidence score;
  - the seven-way regime decision tree and its priority order;
  - the price metrics from abstract ATR and RSI inputs;
  - the candle ordering;
  - the early exits of `get_market_regime`.
- `hyperliquid_environment.dfy` (`HyperliquidEnvironment`) models
  `backend/services/hyperliquid_environment.py`. A `TradingStore` class holds the accounts, wallets,
  positions and system-config tables. Its methods are:
  - setup;
  - the leverage settings;
  - client-key selection;
  - the guarded testnet/mainnet switch;
  - the account config;
  - enable and disable.
- `signal_analysis.dfy` (`SignalAnalysis`) models `backend/services/signal_analysis_service.py`. It covers:
  - the bucketing loops, using last-write-wins or summation;
  - the delta, ratio and imbalance series;
  - the sample-count gates;
  - the percentile-to-suggestion mapping;
  - the taker-volume analysis.
- `hyperliquid_market_data.dfy` (`HyperliquidMarketData`) models
  `backend/services/hyperliquid_market_data.py`. It covers:
  - CCXT symbol formatting;
  - the symbol-list filter and order;
  - the per-candle conversion;
  - the ticker lookup in the exchange universe.
- `hyperliquid_routes.dfy` (`HyperliquidRoutes`) models `backend/api/hyperliquid_routes.py`. It covers:
  - private-key normalisation;
  - the wallet upsert and delete;
  - the trading-mode setter;
  - the manual-order leverage guard;
  - the wallet view;
  - the action summary;
  - snapshot ordering;
  - the status of the switch route.
- `kline_ai_analysis.dfy` (`KlineAiAnalysis`) models `backend/services/kline_ai_analysis_service.py`. It covers:
  - the `SafeDict` placeholder rule;
  - the control flow of the three summary formatters;
  - the payload rules by model family;
  - the bounded retry loop over endpoints.
- `prompt_routes.dfy` (`PromptRoutes`) models `backend/api/prompt_routes.py`. It covers:
  - symbol de-duplication;
  - template choice;
  - the fallback for active symbols;
  - the per-account preview loop;
  - the binding validation order;
  - the premium gate.
- `market_data_routes.dfy` (`MarketDataRoutes`) models `backend/api/market_data_routes.py`. It covers:
  - comma-list parsing;
  - the symbol-count and candle-query bounds;
  - the price and k-line handlers.
- `market_regime_routes.dfy` (`MarketRegimeRoutes`) models `backend/api/market_regime_routes.py`. It covers:
  - the partial update of a regime config;
  - default substitution in responses;
  - the results/errors partition of the batch endpoint.
- `config_routes.dfy` (`ConfigRoutes`) models `backend/api/config_routes.py`. A `SamplingStore` class
  holds the global sampling config, with validation, default creation and partial update.
- `regime_migration.dfy` (`RegimeMigration`) models
  `backend/database/migrations/create_market_regime_configs.py`. The migration is a transition over a
  table of config rows, in two versions: as written, and corrected.
- Shared modules:
  - `regime_configs.dfy` (`RegimeConfigs`) holds the threshold columns of a regime config row;
  - `wrappers.dfy` (`Wrappers`) defines `Option` and `Result`;
  - `seqs.dfy` (`Seqs`) provides filtering and first-match search;
  - `text.dfy` (`Text`) models the ASCII `upper`/`lower`, `strip`, `split`, `join`, substring tests
    and integer printing.

Prices, ratios, volumes and thresholds are `real`; ids, counts, leverages, limits, the sampling interval and depth, and timestamps are `int`. The following are parameters of the operations that use them: exchange and
LLM replies, the percentile function, `math.log`/`exp`, encryption and address derivation,
`floor_timestamp` and the flow-indicator fetch. Code that updates records in place is modelled as
classes with `modifies` clauses, or as methods with loops. Each such method is proved against a
specification function, and lemmas state the properties of those functions.

## Model

| member | source | states |
|---|---|---|
| MarketRegime.Vote | backend/services/market_regime_service.py:62-73 | a signal votes +1 exactly when positive, -1 exactly when negative, and 0 exactly when zero |
| MarketRegime.NetVote | backend/services/market_regime_service.py:61-73 | the net vote of the three signals lies in -3..3 |
| MarketRegime.CalculateDirection | backend/services/market_regime_service.py:56-79 | the counting loop answers bullish exactly when the net vote is at least 2, bearish exactly when it is at most -2, and neutral otherwise |
| MarketRegime.DirectionNegation | backend/services/market_regime_service.py:61-79 | negating all three inputs negates the net vote, swaps bullish and bearish, and keeps neutral |
| MarketRegime.TwoAgainstOneIsNeutral | backend/services/market_regime_service.py:75-79 | two positive signals against one negative give neutral |
| MarketRegime.CalculateConfidence | backend/services/market_regime_service.py:82-97 | the confidence lies in [0, 1]; it is 0 exactly when all four signals are zero, and 1 exactly when every signal reaches its cap (0.3, 1.0, 5.0, 2.0) |
| MarketRegime.ConfidenceIgnoresSign | backend/services/market_regime_service.py:91-97 | negating every signal leaves the confidence unchanged |
| MarketRegime.ClassifyRegime | backend/services/market_regime_service.py:100-182 | the first matching regime in source order: stop hunt exactly when its range/close test holds; breakout exactly when there is no stop hunt and strong CVD, a breakout-sized aligned move, a body over 40% of the range, and an extreme taker ratio or rising OI all hold; with strong CVD and OI below trap_oi_z, exhaustion exactly at an RSI extreme and trap otherwise; absorption exactly when none of these fired and strong CVD meets a price move within absorption_price_atr; continuation exactly when none of these fired and aligned CVD above a third of the strong threshold meets a larger move; noise exactly when no test fired |
| MarketRegime.QuietMarketIsNoise | backend/services/market_regime_service.py:141-182 | zero flow and zero price move with a range inside the stop-hunt bound is classified as noise under non-negative thresholds |
| MarketRegime.CalculatePriceMetrics | backend/services/market_regime_service.py:229-263 | fewer than 15 candles give (0, 0, 50); otherwise the RSI is the last RSI value or 50; a missing or non-positive ATR gives zero price_atr and range_atr; a positive ATR gives (close - open)/ATR and (high - low)/ATR of the last candle |
| MarketRegime.CutoffSeconds | backend/services/market_regime_service.py:205-208 | a cutoff exists exactly when current_time_ms is given and non-zero, and it is current_time_ms floor-divided by 1000 |
| MarketRegime.FetchKlineData | backend/services/market_regime_service.py:210-226 | the result has one candle per row, with the newest-first rows reversed and NULL prices read as 0; strictly newest-first rows give strictly chronological candles |
| MarketRegime.SelectConfig | backend/services/market_regime_service.py:290-295 | the first row that passes the query's test, as `.first()` returns it: the id when config_id is truthy, otherwise is_default; None exactly when no row passes (also lines 49-53) |
| MarketRegime.CvdRatio | backend/services/market_regime_service.py:344-349 | the CVD ratio is 0 when buy + sell is not positive; otherwise the ratio times the total is the current CVD |
| MarketRegime.TakerLogRatio | backend/services/market_regime_service.py:351-355 | the ratio is ln(buy / sell) when both sides are positive, and 0 otherwise |
| MarketRegime.GetMarketRegime | backend/services/market_regime_service.py:266-398 | three early exits, in order, each answer noise/neutral/0 with an empty indicators block: no config, an unsupported timeframe, missing CVD or TAKER data; otherwise the regime and reason are the classifier's, the direction is the vote's, the confidence is calculate_confidence's, and the indicators report exp of the taker log ratio |
| HyperliquidEnvironment.FindAccount | backend/services/hyperliquid_environment.py:59-61 | the found row is the first with that id; None means no row has it |
| HyperliquidEnvironment.FindAccountAfterUpdate | backend/services/hyperliquid_environment.py:70-82 | rewriting the found account row in place keeps it the row found for its id |
| HyperliquidEnvironment.FindWallet | backend/services/hyperliquid_environment.py:232-236 | the first wallet of the (account, environment) pair; None means the pair has no wallet |
| HyperliquidEnvironment.FindActiveWallet | backend/services/hyperliquid_environment.py:165-170 | the first wallet of the pair whose is_active is exactly "true"; None means there is none |
| HyperliquidEnvironment.RecentPositions | backend/services/hyperliquid_environment.py:336-345 | at most `limit` positions, all from the table and all of the account and environment |
| HyperliquidEnvironment.RecentPositionsArePrefix | backend/services/hyperliquid_environment.py:336-345 | the positions examined are exactly the first `limit` positions of the account and environment, in table order (all of them when there are fewer) |
| HyperliquidEnvironment.OpenCount | backend/services/hyperliquid_environment.py:347-351 | the count is at most the number of positions, and it is zero exactly when no position has a non-zero size |
| HyperliquidEnvironment.SyncEnabledAccounts | backend/services/hyperliquid_environment.py:393-401 | the loop moves every account whose hyperliquid_enabled is "true" to the target, and leaves every other account as it was |
| HyperliquidEnvironment.TradingStore.GlobalMode | backend/services/hyperliquid_environment.py:115-130 | the stored mode when it is "testnet" or "mainnet", and "testnet" otherwise; the result is always one of the two |
| HyperliquidEnvironment.TradingStore.LeverageSettings | backend/services/hyperliquid_environment.py:133-193 | the lookup fails exactly for an invalid environment or a missing account, the latter with "Account {id} not found"; otherwise an active wallet's leverage wins, and without one the account columns are used, with NULL read as 3 and 1 |
| HyperliquidEnvironment.TradingStore.UsableWallet | backend/services/hyperliquid_environment.py:232-240 | a wallet is used exactly when the first wallet of the pair exists and its is_active does not lower-case to "false", and then it is that first wallet |
| HyperliquidEnvironment.TradingStore.ClientKeyFor | backend/services/hyperliquid_environment.py:196-259 | a missing account is "Account {id} not found" and an invalid override an error; the environment is the truthy override or else the global mode; a usable wallet supplies the key and address; without one the account key for that environment is used; a key is found exactly when a usable wallet exists or the legacy key is truthy, and otherwise the error names the account's name and id |
| HyperliquidEnvironment.TradingStore.AccountConfigOf | backend/services/hyperliquid_environment.py:424-492 | "Account {id} not found" for a missing account; enabled is (an active wallet exists) or (the legacy flag is "true"); each environment counts as configured when it has an active wallet or a legacy key; the environment is the global mode; the leverage is get_leverage_settings under the global mode |
| HyperliquidEnvironment.TradingStore.SetupAccount | backend/services/hyperliquid_environment.py:25-112 | an invalid environment, max_leverage outside 1..50 or default_leverage outside 1..max_leverage (its message naming max_leverage) is refused before any account is read; then "Account {id} not found"; success needs the account and a working encryption; it writes only the key of the requested environment, sets the environment to the global mode (not the requested one), enabled to "true" and both leverages; other tables are unchanged and enabled accounts stay in sync with the global mode |
| HyperliquidEnvironment.TradingStore.StoreSetup | backend/services/hyperliquid_environment.py:70-82 | the writes of the setup to one account row, which stays the row found for its id |
| HyperliquidEnvironment.TradingStore.SwitchEnvironment | backend/services/hyperliquid_environment.py:283-421 | the guards run in order: confirmation, a valid target, an existing account, no change when already on the target, open positions among the 20 most recent on the current environment, the target key; with confirmation, a valid target and an existing account that is not on the target, open positions on a truthy current environment force `Rejected(OpenPositions(n))` with their count, and otherwise a missing target key forces `Rejected(MissingTargetKey)`; every guard path writes nothing; a committed switch sets the global mode to the target and moves exactly the enabled accounts to it |
| HyperliquidEnvironment.TradingStore.DisableTrading | backend/services/hyperliquid_environment.py:494-527 | "Account {id} not found" without a write for a missing account; otherwise only the enabled flag of the account becomes "false", and the keys stay; afterwards the reported enabled status depends only on active wallets |
| HyperliquidEnvironment.TradingStore.EnableTrading | backend/services/hyperliquid_environment.py:530-579 | succeeds exactly when the account exists, has a truthy environment and has that environment's legacy key; "Account {id} not found" and the full "No environment configured" message for the first two failures; then only the enabled flag becomes "true" |
| HyperliquidEnvironment.LeverageFallsBackToDefaults | backend/services/hyperliquid_environment.py:182-193 | with no active wallet and NULL leverage columns the settings are 3x / 1x |
| HyperliquidEnvironment.InactiveWalletIgnored | backend/services/hyperliquid_environment.py:238-259 | when the pair's first wallet is marked inactive, a key is found exactly when the legacy key is truthy |
| SignalAnalysis.MetricAlias | backend/services/signal_analysis_service.py:49-55 | the three legacy names map to oi_delta, funding and taker_ratio; every other name is kept |
| SignalAnalysis.MetricAliasIdempotent | backend/services/signal_analysis_service.py:50-55 | mapping a name twice gives the same as mapping it once |
| SignalAnalysis.InsertSorted | backend/services/signal_analysis_service.py:202 | adding a key to a strictly increasing key list keeps it strictly increasing and holds exactly the old keys and the new one |
| SignalAnalysis.LastInBucketEmpty | backend/services/signal_analysis_service.py:196-199 | a bucket holds nothing exactly when no record falls in it |
| SignalAnalysis.LastInBucketIsLastWrite | backend/services/signal_analysis_service.py:196-199 | last write wins: a bucket holds the value of a record in it after which no record falls in it (also lines 266-269, 373-376, 403-406) |
| SignalAnalysis.SortedBuckets | backend/services/signal_analysis_service.py:202 | the sorted bucket keys are strictly increasing and are exactly the buckets some record falls in (also lines 241, 271, 305, 343, 378, 408) |
| SignalAnalysis.LastSeries | backend/services/signal_analysis_service.py:378-379 | one value per sorted key, each the value that key's bucket holds (also lines 408-409) |
| SignalAnalysis.BucketLast | backend/services/signal_analysis_service.py:196-202 | the overwrite loop yields the sorted keys and the last-write value of each bucket (also lines 266-271, 373-379, 403-409) |
| SignalAnalysis.SumInBucket | backend/services/signal_analysis_service.py:233-239 | with non-negative notionals the bucket's buy and sell sums are non-negative; a bucket no record falls in sums to (0, 0) (also lines 335-341) |
| SignalAnalysis.SumInBucketAppend | backend/services/signal_analysis_service.py:236-239 | a bucket's sums over two runs of records are the sums of each run added together |
| SignalAnalysis.SumSeries | backend/services/signal_analysis_service.py:241-242 | one sum per sorted key, each that bucket's accumulated buy and sell (also lines 343-345) |
| SignalAnalysis.SumStep | backend/services/signal_analysis_service.py:236-239 | one more record adds its flow to its own bucket and leaves the others unchanged |
| SignalAnalysis.SortedStep | backend/services/signal_analysis_service.py:236-241 | one more record adds its bucket to the sorted keys exactly when the bucket is new |
| SignalAnalysis.BucketSums | backend/services/signal_analysis_service.py:233-241 | the accumulating loop yields the sorted keys and each bucket's summed buy and sell (also lines 335-343, 475-483) |
| SignalAnalysis.NonZero | backend/services/signal_analysis_service.py:199 | an open interest is kept exactly when it is set and non-zero |
| SignalAnalysis.OiDeltas | backend/services/signal_analysis_service.py:204-209 | there are no deltas for fewer than two buckets and at most one per consecutive pair |
| SignalAnalysis.OiDeltasComplete | backend/services/signal_analysis_service.py:204-209 | with every bucket set and non-zero there is exactly one delta per consecutive pair, the percentage change (curr - prev) / prev * 100 |
| SignalAnalysis.OiDeltasSkipUnset | backend/services/signal_analysis_service.py:207 | an unset bucket drops both deltas it takes part in and splits the deltas there |
| SignalAnalysis.OiDeltaValues | backend/services/signal_analysis_service.py:202-209 | the delta loop returns exactly the percentage deltas of the bucket values |
| SignalAnalysis.CvdValues | backend/services/signal_analysis_service.py:242 | one value per bucket, buy minus sell |
| SignalAnalysis.DepthRatios | backend/services/signal_analysis_service.py:271-276 | at most one ratio per bucket, one for each when every ask is positive, and none negative when bids are non-negative |
| SignalAnalysis.DepthRatioValues | backend/services/signal_analysis_service.py:272-276 | the depth loop returns exactly the bid/ask ratios of the buckets with a positive ask |
| SignalAnalysis.ImbalanceInRange | backend/services/signal_analysis_service.py:308-311 | (bid - ask) / (bid + ask) lies in [-1, 1] for non-negative sizes with a positive total |
| SignalAnalysis.Imbalances | backend/services/signal_analysis_service.py:305-311 | at most one imbalance per bucket, each within [-1, 1] when the sizes are non-negative |
| SignalAnalysis.ImbalanceValues | backend/services/signal_analysis_service.py:306-311 | the imbalance loop returns exactly the imbalances of the buckets with a positive total |
| SignalAnalysis.BuySellRatios | backend/services/signal_analysis_service.py:343-349 | at most one ratio per bucket, none negative when buys are non-negative |
| SignalAnalysis.BuySellRatioValues | backend/services/signal_analysis_service.py:344-349 | the taker-ratio loop returns exactly the buy/sell ratios of the buckets with a positive sell |
| SignalAnalysis.MapValues | backend/services/signal_analysis_service.py:197-199 | one sample per record, same timestamp, the value converted |
| SignalAnalysis.OiDeltaSamples | backend/services/signal_analysis_service.py:183-199 | every row is read, its open interest kept only when set and non-zero |
| SignalAnalysis.FundingSamples | backend/services/signal_analysis_service.py:360-376 | rows with a NULL rate are skipped, so there are at most as many samples as rows |
| SignalAnalysis.OiSamples | backend/services/signal_analysis_service.py:390-406 | rows with a NULL open interest are skipped, so there are at most as many samples as rows |
| SignalAnalysis.MetricHistorySpec | backend/services/signal_analysis_service.py:139-167 | the bucket times are strictly increasing; cvd, funding and oi give one value per bucket, the others at most one |
| SignalAnalysis.MetricHistory | backend/services/signal_analysis_service.py:139-167 | the dispatch and its bucketing loop return exactly `MetricHistorySpec`: bucket times strictly increasing, one value per bucket for cvd, funding and oi (also lines 178-413) |
| SignalAnalysis.MsToHours | backend/services/signal_analysis_service.py:174 | hours times 3 600 000 is the milliseconds; non-negative milliseconds give non-negative hours |
| SignalAnalysis.TimeRangeHours | backend/services/signal_analysis_service.py:171-174 | 0 with no buckets or when an end is 0 (falsy), otherwise the span of the buckets in hours, never negative for increasing times |
| SignalAnalysis.AbsValues | backend/services/signal_analysis_service.py:420 | one non-negative value per input, equal to it or its negation |
| SignalAnalysis.GenerateSuggestions | backend/services/signal_analysis_service.py:434-451 | aggressive, moderate and conservative are the p75, p90 and p95 of the absolute values |
| SignalAnalysis.SuggestionsOrdered | backend/services/signal_analysis_service.py:426-451 | for a percentile that grows with q the thresholds go aggressive <= moderate <= conservative |
| SignalAnalysis.MetricAnalysis | backend/services/signal_analysis_service.py:72-105 | insufficient exactly below 3 samples; otherwise the sample count, precision 6 exactly for funding, a warning exactly below 10 samples, the percentiles, suggestions and time range |
| SignalAnalysis.AnalyzeMetric | backend/services/signal_analysis_service.py:27-112 | an unknown period or metric fails with its message; taker_volume gives the taker analysis; a history metric gives the analysis of its history, after the alias is applied (also lines 126-131) |
| SignalAnalysis.AnalyzeForInterval | backend/services/signal_analysis_service.py:58-70 | taker_volume, an unsupported metric and a history metric each get their own answer (also lines 139-169) |
| SignalAnalysis.TakerRatios | backend/services/signal_analysis_service.py:495-501 | at most one ratio per bucket |
| SignalAnalysis.TakerVolumes | backend/services/signal_analysis_service.py:495-502 | at most one volume per bucket, every volume positive |
| SignalAnalysis.TakerListsAligned | backend/services/signal_analysis_service.py:499-502 | ratios and volumes are always the same length |
| SignalAnalysis.TakerPairs | backend/services/signal_analysis_service.py:493-502 | the loop returns exactly the ratios and volumes of the valid buckets |
| SignalAnalysis.TakerVolumeOfBuckets | backend/services/signal_analysis_service.py:483-557 | under 3 buckets answers insufficient with the count; analyzed exactly with 3 buckets and 3 valid ones; the period label, count, non-negative time range and percentile suggestions of the ratios and volumes |
| SignalAnalysis.TakerVolumeAnalysis | backend/services/signal_analysis_service.py:472-557 | no records answers "No data available"; an analysis has at least 3 samples and a non-negative time range |
| SignalAnalysis.AnalyzeTakerVolume | backend/services/signal_analysis_service.py:453-557 | the bucketing loop and the gates return exactly `TakerVolumeAnalysis`: no trades answers "No data available", and an analysis has at least 3 samples |
| SignalAnalysis.TakerGates | backend/services/signal_analysis_service.py:483-557 | the gates after the bucketing loop compute the taker analysis of the buckets |
| HyperliquidMarketData.FormatSymbol | backend/services/hyperliquid_market_data.py:349-366 | a symbol with '/' and ':' is kept; with '/' only it gains ":USDC" with its case kept; otherwise it is upper-cased and gains "/USDC:USDC" exactly for the six mainstream coins and "/USDC" for the rest |
| HyperliquidMarketData.FormatSymbolHasSlash | backend/services/hyperliquid_market_data.py:349-366 | every formatted symbol contains '/' |
| HyperliquidMarketData.FormatSymbolReformat | backend/services/hyperliquid_market_data.py:351-355 | formatting a result with ':' again changes nothing; a result without ':' gains ":USDC" |
| HyperliquidMarketData.FormatSymbolSettles | backend/services/hyperliquid_market_data.py:349-366 | formatting twice is a fixed point: a third application changes nothing |
| HyperliquidMarketData.SpotSymbolIsNotFixpoint | backend/services/hyperliquid_market_data.py:353-366 | a plain non-mainstream coin becomes COIN/USDC, which is changed again when fed back in |
| HyperliquidMarketData.Take | backend/services/hyperliquid_market_data.py:340 | a slice `[:n]` is the prefix of length min(n, len) |
| HyperliquidMarketData.AllSymbols | backend/services/hyperliquid_market_data.py:323-347 | without markets the three fallback pairs; otherwise the "/USDC" keys that are mainstream, in order, then at most 50 of the others, in order; every result is a "/USDC" market key |
| HyperliquidMarketData.Timeframe | backend/services/hyperliquid_market_data.py:199-215 | a listed period maps to itself and any other period to "1d"; the result is always a listed timeframe |
| HyperliquidMarketData.MsToSeconds | backend/services/hyperliquid_market_data.py:235 | `int(ms / 1000)` truncates toward zero, for negative milliseconds too |
| HyperliquidMarketData.Truthy | backend/services/hyperliquid_market_data.py:237-241 | a zero value is reported as None, any other value as itself |
| HyperliquidMarketData.ConvertCandle | backend/services/hyperliquid_market_data.py:223-245 | seconds timestamp; zero prices are None; amount is volume times close exactly when both are non-zero; chg and percent are 0 for a zero open, else close - open and the percentage of open |
| HyperliquidMarketData.GetKlineData | backend/services/hyperliquid_market_data.py:190-259 | a failed fetch gives []; otherwise one converted kline per candle, in order, fetched with the formatted symbol and the mapped timeframe |
| HyperliquidMarketData.CcxtFallback | backend/services/hyperliquid_market_data.py:142-161 | the fallback answers exactly when the CCXT ticker is available, with the requested symbol and its last price, change, base volume and percentage, each 0 when missing |
| HyperliquidMarketData.WithoutSlashes | backend/services/hyperliquid_market_data.py:98 | `replace('/', '')` is the input with every '/' removed and every other character kept in order |
| HyperliquidMarketData.FindUniverseIndex | backend/services/hyperliquid_market_data.py:91-100 | the scan with `break` finds the first universe entry naming the symbol, or reports that none does |
| HyperliquidMarketData.NativeTicker | backend/services/hyperliquid_market_data.py:112-132 | price, oracle price, volume, open interest and funding rate are markPx, oraclePx, dayNtlVlm, openInterest and funding (each 0 when absent); change and percentage are 0 when prevDayPx is 0, otherwise the change and its percentage of prevDayPx |
| HyperliquidMarketData.FirstMatch | backend/services/hyperliquid_market_data.py:94-100 | the first index whose entry names the symbol, or None when no entry does |
| HyperliquidMarketData.TickerFor | backend/services/hyperliquid_market_data.py:73-140 | the native ticker exactly when the response has a matching universe entry whose index has an asset context dict; in every other case the CCXT fallback |
| HyperliquidMarketData.GetTickerData | backend/services/hyperliquid_market_data.py:73-140 | the universe scan with `break` returns exactly `TickerFor`: the native ticker for the first matching entry with an asset context, the CCXT fallback otherwise |
| HyperliquidRoutes.SwitchRouteStatus | backend/api/hyperliquid_routes.py:178-190 | the switch route answers 200 exactly for a no-change result, 400 exactly for a refused switch (ValueError) and 500 exactly when the committed switch fails to build its answer |
| HyperliquidRoutes.SwitchRequestStatus | backend/api/hyperliquid_routes.py:70-73 | a target outside ^(testnet|mainnet)$ is answered 422 by the request model before the service runs, and exactly then; a valid target gets the service's status (also lines 178-190) |
| HyperliquidRoutes.Unprefixed | backend/api/hyperliquid_routes.py:893-894 | one leading "0x" is removed and nothing else changes |
| HyperliquidRoutes.NormalizeKey | backend/api/hyperliquid_routes.py:892-900 | an accepted key has exactly 64 characters and is the stripped input with or without its "0x"; a refused one is not 64 long after strip and prefix removal |
| HyperliquidRoutes.NormalizeKeyBare | backend/api/hyperliquid_routes.py:892-900 | a 64-character key without padding or prefix is accepted unchanged |
| HyperliquidRoutes.NormalizeKeyPrefixed | backend/api/hyperliquid_routes.py:892-900 | "0x" followed by a 64-character key is accepted as that key |
| HyperliquidRoutes.PrefixedKeyUnpadded | backend/api/hyperliquid_routes.py:892 | stripping leaves a "0x"-prefixed key without padding unchanged |
| HyperliquidRoutes.PrefixedKeyUnprefixed | backend/api/hyperliquid_routes.py:893-894 | removing the prefix from "0x" + k gives k |
| HyperliquidRoutes.CheckWalletRequest | backend/api/hyperliquid_routes.py:881-914 | request validation fails with 422; then a bad environment 400, a missing account 404 "Account {id} not found" and a bad key 400, in that order; it succeeds exactly when all pass and address derivation and encryption succeed, giving the encrypted key and the address (also lines 763-768) |
| HyperliquidRoutes.ConfigureAccountWallet | backend/api/hyperliquid_routes.py:865-1066 | a refused request changes nothing; a passed one updates the (account, environment) wallet in place or appends one new wallet, active, after which the leverage and client key read back from that wallet; mainnet authorisation failure only sets the flag; (account, environment) pairs stay unique |
| HyperliquidRoutes.SaveWallet | backend/api/hyperliquid_routes.py:916-1003 | the existing wallet of the pair is rewritten keeping its id, or a new one is appended with the next id; pairs stay unique; the saved wallet is the one leverage and key lookups find |
| HyperliquidRoutes.StoreWallet | backend/api/hyperliquid_routes.py:922-931 | writes the wallet into its slot or appends it, changing nothing else, and keeps the pairs unique (also lines 990-1003) |
| HyperliquidRoutes.AppendKeepsPairsUnique | backend/api/hyperliquid_routes.py:989-1003 | appending a wallet for a pair that has none keeps the pairs unique |
| HyperliquidRoutes.WalletUpdateKeepsPairsUnique | backend/api/hyperliquid_routes.py:922-931 | rewriting a wallet in place with the same pair keeps the pairs unique |
| HyperliquidRoutes.SavedWalletReadsBack | backend/api/hyperliquid_routes.py:922-1003 | the first, active wallet of a pair supplies the leverage settings and the client key for that environment |
| HyperliquidRoutes.SavedWalletIsFound | backend/api/hyperliquid_routes.py:917-920 | the first wallet of a pair, when active, is both the wallet found and the active wallet found |
| HyperliquidRoutes.DeleteAccountWallet | backend/api/hyperliquid_routes.py:1069-1126 | a bad environment 422, a missing account 404 "Account {id} not found" or a missing wallet 404 naming the environment and the id, with nothing removed; otherwise exactly the first wallet of the pair is removed, every other wallet stays, with unique pairs the environment then has no wallet, and the answer is the account id, the account's name, the environment and the message "Testnet wallet deleted" or "Mainnet wallet deleted" |
| HyperliquidRoutes.DeletedMessageCapitalizes | backend/api/hyperliquid_routes.py:1118 | for both environments the answer's message is `environment.capitalize()` followed by " wallet deleted" |
| HyperliquidRoutes.CapitalizedTestnet | backend/api/hyperliquid_routes.py:1118 | `"testnet".capitalize()` is "Testnet" |
| HyperliquidRoutes.CapitalizedMainnet | backend/api/hyperliquid_routes.py:1118 | `"mainnet".capitalize()` is "Mainnet" |
| HyperliquidRoutes.RemovalKeepsOthers | backend/api/hyperliquid_routes.py:1104-1107 | removing one wallet keeps every other one and keeps the pairs unique |
| HyperliquidRoutes.SetTradingMode | backend/api/hyperliquid_routes.py:1222-1284 | a mode other than testnet or mainnet is refused; a missing config reads as testnet; the same mode reports no change and writes nothing; a new mode is stored; afterwards the global mode is the requested one (also lines 1194-1196) |
| HyperliquidRoutes.ManualOrderAsWritten | backend/api/hyperliquid_routes.py:341-383 | the route as written: validation 422, no client key 400 with the service's message, too high a leverage 500 "Order placement failed: 400: Leverage {n}x exceeds account maximum {m}x for {env} environment", and an order within the maximum goes on with its environment, key and maximum leverage (also lines 84-95) |
| HyperliquidRoutes.ManualOrderCorrected | backend/api/hyperliquid_routes.py:341-383 | as above, but too high a leverage answers 400 with the leverage message; an order passing every guard goes on with its environment, key and maximum leverage, and an accepted order uses its environment's leverage settings |
| HyperliquidRoutes.ManualOrderLeverageAnswers500 | backend/api/hyperliquid_routes.py:354-358 | too high a leverage answers 500 as written and 400 when corrected, the 500 detail being "Order placement failed: 400: " and the 400 detail (also lines 379-383) |
| HyperliquidRoutes.ManualOrderVersionsAgreeOtherwise | backend/api/hyperliquid_routes.py:341-383 | on every other request the two versions answer the same |
| HyperliquidRoutes.LastWallet | backend/api/hyperliquid_routes.py:814-843 | the wallet kept for an environment is the last of the account's wallets in it, in table order (the loop overwrites); None exactly when it has none |
| HyperliquidRoutes.LatestWallets | backend/api/hyperliquid_routes.py:811-843 | the loop keeps, for testnet and for mainnet, the view of the last wallet seen |
| HyperliquidRoutes.GetAccountWallet | backend/api/hyperliquid_routes.py:786-862 | 404 "Account {id} not found" for a missing account; otherwise both views, `configured` exactly when the account has a testnet or mainnet wallet, and the global mode |
| HyperliquidRoutes.TotalActions | backend/api/hyperliquid_routes.py:590 | the total is 0 exactly when every count is 0 and is at least each count |
| HyperliquidRoutes.TotalActionsAppend | backend/api/hyperliquid_routes.py:590 | the total over two groups of rows is the sum of their totals |
| HyperliquidRoutes.LatestEvent | backend/api/hyperliquid_routes.py:591 | None exactly when no row has a last timestamp; otherwise one of them and no smaller than any |
| HyperliquidRoutes.GetAccountSnapshots | backend/api/hyperliquid_routes.py:458-522 | a limit outside 1..1000 is 422, a missing account 404, an unset environment 400; otherwise the newest `limit` snapshots, reversed, so newest-first input comes out oldest first, with their count |
| KlineAiAnalysis.SafeGet | backend/services/kline_ai_analysis_service.py:22-25 | a present key gives its value and a missing key gives "N/A" |
| KlineAiAnalysis.RenderMissingAsPlaceholder | backend/services/kline_ai_analysis_service.py:22-25 | rendering with a key missing is the same as rendering with that key set to "N/A" (also line 279) |
| KlineAiAnalysis.RenderIgnoresUnusedKeys | backend/services/kline_ai_analysis_service.py:260-279 | a context entry the template never names does not change the rendered prompt |
| KlineAiAnalysis.Percent | backend/services/kline_ai_analysis_service.py:59 | for a positive base the percentage times the base is 100 times the change, and it is non-negative exactly when the change is (also line 75) |
| KlineAiAnalysis.CandleRowOf | backend/services/kline_ai_analysis_service.py:51-64 | the direction is "+" exactly when close >= open (a missing price reads as 0); the change is a percentage of a positive open and 0 otherwise |
| KlineAiAnalysis.LowestLow | backend/services/kline_ai_analysis_service.py:71 | the lowest low is at most every candle's low, a missing low counting as infinity; it is infinity exactly when no candle has a low |
| KlineAiAnalysis.HighestHigh | backend/services/kline_ai_analysis_service.py:70 | the highest high is one of the candles' highs (a missing one is 0) and at least every other |
| KlineAiAnalysis.PeriodSummary | backend/services/kline_ai_analysis_service.py:66-80 | the summary appears exactly with two or more candles and a first close above 0, as five lines headed "--- Period Summary ---", with the change from the first to the last close as a percentage |
| KlineAiAnalysis.KlinesSummary | backend/services/kline_ai_analysis_service.py:28-82 | no candles gives the single no-data line; otherwise the header with the count, one row per candle in order, and the period summary exactly under its condition |
| KlineAiAnalysis.FormatKlinesSummary | backend/services/kline_ai_analysis_service.py:28-82 | the appending loop returns exactly `KlinesSummary`: the no-data line for no candles, otherwise the header, one row per candle and the period summary |
| KlineAiAnalysis.PositionParts | backend/services/kline_ai_analysis_service.py:91-113 | seven parts, eight exactly when a pnl percentage is present; symbol or "N/A", upper-cased side and size lead; unrealized pnl is seventh and "pnl%" last |
| KlineAiAnalysis.PositionLines | backend/services/kline_ai_analysis_service.py:85-117 | no positions gives "No open positions."; otherwise one " \| "-joined line per position, in order |
| KlineAiAnalysis.FormatPositionsSummary | backend/services/kline_ai_analysis_service.py:85-117 | the loop produces the positions lines joined by newlines |
| KlineAiAnalysis.RsiBandOf | backend/services/kline_ai_analysis_service.py:154 | Overbought exactly above 70, Oversold exactly below 30, Neutral exactly in [30, 70] |
| KlineAiAnalysis.RsiBandMonotone | backend/services/kline_ai_analysis_service.py:154 | a larger RSI never gets a lower band |
| KlineAiAnalysis.Tail | backend/services/kline_ai_analysis_service.py:137 | the tail is the numeric entries of the last five entries of the series (all of them when there are fewer), in order (also line 179) |
| KlineAiAnalysis.Numbers | backend/services/kline_ai_analysis_service.py:137 | the numbers are exactly the non-None entries of the series, in order (also line 179) |
| KlineAiAnalysis.MaItemsFor | backend/services/kline_ai_analysis_service.py:130-139 | a moving average contributes exactly when it is a non-empty series, led by its latest value |
| KlineAiAnalysis.MaItemsOf | backend/services/kline_ai_analysis_service.py:129-139 | no item exactly when none of the keys is a non-empty series |
| KlineAiAnalysis.RsiLinesFor | backend/services/kline_ai_analysis_service.py:148-155 | an RSI key contributes exactly when it is a non-empty series whose last value is a number, labelled with that value's band |
| KlineAiAnalysis.RsiLinesOf | backend/services/kline_ai_analysis_service.py:147-155 | every reading carries its value's band; none exactly when no key contributes |
| KlineAiAnalysis.HistogramLines | backend/services/kline_ai_analysis_service.py:175-181 | histogram lines exactly when the last histogram value is a number, bullish exactly when it is positive |
| KlineAiAnalysis.MaSection | backend/services/kline_ai_analysis_service.py:141-144 | a non-empty section starts with its heading |
| KlineAiAnalysis.RsiSection | backend/services/kline_ai_analysis_service.py:157-160 | a non-empty section starts with its heading |
| KlineAiAnalysis.MacdSection | backend/services/kline_ai_analysis_service.py:163-182 | the MACD section appears exactly when MACD is a non-empty table and starts with "**MACD:**" |
| KlineAiAnalysis.BollSection | backend/services/kline_ai_analysis_service.py:185-199 | the Bollinger section appears exactly when BOLL is a non-empty table and starts with its heading |
| KlineAiAnalysis.AtrSection | backend/services/kline_ai_analysis_service.py:202-207 | the ATR section appears exactly when ATR14 is a non-empty series whose last value is a number |
| KlineAiAnalysis.Sections | backend/services/kline_ai_analysis_service.py:125-207 | the sections in order; when there are any, the first line is a heading |
| KlineAiAnalysis.MaSectionEmptyIff | backend/services/kline_ai_analysis_service.py:129-144 | the moving-average section is empty exactly when no moving-average key is selected |
| KlineAiAnalysis.RsiSectionEmptyIff | backend/services/kline_ai_analysis_service.py:147-160 | the RSI section is empty exactly when no RSI key has a numeric last value |
| KlineAiAnalysis.SectionsEmptyIff | backend/services/kline_ai_analysis_service.py:125-210 | no line at all is produced exactly when no indicator is selected |
| KlineAiAnalysis.IndicatorsSummary | backend/services/kline_ai_analysis_service.py:120-212 | an empty dict gives "No technical indicators available."; "No technical indicators selected." exactly for a non-empty dict with nothing selected; otherwise the sections |
| KlineAiAnalysis.FormatIndicatorsSummary | backend/services/kline_ai_analysis_service.py:120-212 | the method returns exactly `IndicatorsSummary`: the "available" message for an empty dict, the "selected" message when no section applies, otherwise the sections |
| KlineAiAnalysis.CollectMaItems | backend/services/kline_ai_analysis_service.py:129-139 | the loop over MA5 … EMA50 collects the moving-average items |
| KlineAiAnalysis.CollectRsiReadings | backend/services/kline_ai_analysis_service.py:147-155 | the loop over RSI14 and RSI7 collects the banded readings |
| KlineAiAnalysis.SliceFrom | backend/services/kline_ai_analysis_service.py:254 | Python slicing `s[start:]`, a negative start counting from the end and both clamped |
| KlineAiAnalysis.DisplayKlines | backend/services/kline_ai_analysis_service.py:254 | no limit or 0 shows every candle; a positive limit shows the last min(limit, len) candles; a negative limit drops that many from the front |
| KlineAiAnalysis.BuildPayload | backend/services/kline_ai_analysis_service.py:290-320 | temperature 0.7 exactly for non-reasoning models; max_completion_tokens exactly for reasoning and gpt-4o models, max_tokens otherwise; 4000 tokens |
| KlineAiAnalysis.RequestTimeout | backend/services/kline_ai_analysis_service.py:331 | 120 seconds exactly for reasoning models, 60 otherwise |
| KlineAiAnalysis.PayloadFamilies | backend/services/kline_ai_analysis_service.py:290-331 | a payload without temperature uses max_completion_tokens and the 120 s timeout; one with max_tokens has a temperature |
| KlineAiAnalysis.ReasoningModelIgnoresCase | backend/services/kline_ai_analysis_service.py:290-293 | the model name is lower-cased before the markers are looked for, so every name is classified as its lower-cased and its upper-cased form are |
| KlineAiAnalysis.AttemptsAt | backend/services/kline_ai_analysis_service.py:334 | an endpoint is tried at least once and at most three times |
| KlineAiAnalysis.AttemptsStopAtFirstFinalReply | backend/services/kline_ai_analysis_service.py:334-365 | every attempt before the last was retryable (a request error or a 429 before the last attempt) and the last was not |
| KlineAiAnalysis.FirstSucceeding | backend/services/kline_ai_analysis_service.py:333-368 | the winner is the first endpoint whose last attempt answered 200; None exactly when no endpoint did |
| KlineAiAnalysis.FirstSucceedingStep | backend/services/kline_ai_analysis_service.py:367-368 | the search stops at an endpoint that succeeded and otherwise passes to the next |
| KlineAiAnalysis.CallWithRetries | backend/services/kline_ai_analysis_service.py:328-368 | the nested loop finds the first succeeding endpoint, tries each endpoint up to it (all when none succeeds), each with its own number of attempts, at most three |
| KlineAiAnalysis.TryEndpoint | backend/services/kline_ai_analysis_service.py:334-365 | the attempt loop makes `AttemptsAt` attempts (one to three, stopping at the first non-retryable reply) and reports whether the last answered 200 |
| KlineAiAnalysis.AnalyzeKlineChart | backend/services/kline_ai_analysis_service.py:245-419 | a missing or placeholder key, no endpoint, all endpoints failing, no choices and empty content each give their error, in that order; otherwise the first choice with the winning endpoint, payload and timeout |
| PromptRoutes.RawSymbols | backend/api/prompt_routes.py:274 | the raw symbols are exactly the non-empty inputs, in order, each upper-cased |
| PromptRoutes.RawSymbolsFromInput | backend/api/prompt_routes.py:274 | every raw symbol is the upper-case form of a non-empty input |
| PromptRoutes.Dedup | backend/api/prompt_routes.py:275-280 | the de-duplicated list holds exactly the input's symbols, each once |
| PromptRoutes.IndexOf | backend/api/prompt_routes.py:278 | the first occurrence of a symbol |
| PromptRoutes.IndexOfUnique | backend/api/prompt_routes.py:278 | an occurrence with no earlier one is the first occurrence |
| PromptRoutes.IndexOfAppend | backend/api/prompt_routes.py:280 | appending does not move a symbol's first occurrence |
| PromptRoutes.DedupKeepsFirstOccurrenceOrder | backend/api/prompt_routes.py:275-280 | the kept symbols appear in the order of their first occurrences |
| PromptRoutes.RequestedSymbols | backend/api/prompt_routes.py:274-280 | the requested symbols are exactly the de-duplicated upper-cased raw symbols |
| PromptRoutes.KeepFirstOccurrences | backend/api/prompt_routes.py:275-280 | the loop with the `seen` set keeps only non-empty symbols of its input, and over non-empty symbols it keeps each once at its first occurrence (`Dedup`) |
| PromptRoutes.TemplateFor | backend/api/prompt_routes.py:270-295 | a non-empty templateText wins; otherwise an explicit null key answers 404 "Prompt template 'None' not found", and a missing or given key (default "default") finds its template or answers 404 naming the key |
| PromptRoutes.NullKeyIsNotDefault | backend/api/prompt_routes.py:271-294 | with a "default" template stored, a missing key finds it and an explicit null key answers 404 |
| PromptRoutes.ActiveSymbols | backend/api/prompt_routes.py:381-393 | testnet and mainnet fall back requested, then watchlist, then base order; other modes requested, then base order |
| PromptRoutes.PreviewUsesWatchlist | backend/api/prompt_routes.py:381-382 | under the global mode, with no symbols requested and a non-empty watchlist, the watchlist is used |
| PromptRoutes.FetchPrices | backend/api/prompt_routes.py:395-401 | one price per active symbol and no other; a failed fetch gives 0.0 |
| PromptRoutes.PricesOf | backend/api/prompt_routes.py:395-401 | one price per active symbol, a failed fetch being 0.0 |
| PromptRoutes.PreviewsErrorSticks | backend/api/prompt_routes.py:370-375 | once an account's state fetch fails, the remaining ids change nothing: the request fails with that error |
| PromptRoutes.PreviewsFollowKnownIds | backend/api/prompt_routes.py:313-317 | exactly one preview per found account id, in input order, each carrying the requested symbols (also lines 440-445) |
| PromptRoutes.PreviewFailsOnlyForKnownAccount | backend/api/prompt_routes.py:328-375 | a failed preview is a 502 caused by a found account whose Hyperliquid state fetch failed, and its detail ends with that exception's text |
| PromptRoutes.PreviewPrompt | backend/api/prompt_routes.py:223-447 | no account ids give 400 before the template is looked up; a missing template gives its 404; otherwise the previews of the accounts under the global mode with the de-duplicated symbols |
| PromptRoutes.PreviewAccounts | backend/api/prompt_routes.py:311-447 | the account loop returns exactly `Previews`: one preview per found id in input order, unknown ids skipped, the first failing state fetch ending the request |
| PromptRoutes.UpsertBinding | backend/api/prompt_routes.py:173-200 | missing accountId 400, missing promptTemplateId 400, missing account 404, missing template 404, in that order; on success the account is bound to the template and every other binding is kept |
| PromptRoutes.UpsertBindingIdempotent | backend/api/prompt_routes.py:173-200 | repeating the same binding request leaves the bindings as the first time |
| PromptRoutes.ConversationMessages | backend/api/prompt_routes.py:552-587 | no default user gives 404 "User not found"; for the found user, a missing or non-premium first subscription gives 403, then a missing conversation gives 404 "Conversation not found", and otherwise the messages are returned |
| PromptRoutes.NonPremiumIsRefused | backend/api/prompt_routes.py:567-576 | a default user without a premium subscription gets 403 |
| MarketDataRoutes.StrippedParts | backend/api/market_data_routes.py:106 | the kept parts are non-empty and carry no surrounding whitespace, and there are at most as many as parts |
| MarketDataRoutes.ParseCommaList | backend/api/market_data_routes.py:106 | every parsed item is non-empty, free of commas and of surrounding whitespace (also line 347) |
| MarketDataRoutes.StrippedPartsNoComma | backend/api/market_data_routes.py:106 | stripping the pieces of a comma split introduces no comma |
| MarketDataRoutes.StrippedCleanParts | backend/api/market_data_routes.py:106 | parts that are already non-empty and stripped are kept as they are |
| MarketDataRoutes.StrippedPartsCons | backend/api/market_data_routes.py:106 | a clean first part is kept in front of the rest |
| MarketDataRoutes.ParseJoinRoundTrip | backend/api/market_data_routes.py:106 | joining clean items with ',' and parsing gives the items back |
| MarketDataRoutes.ParseIdempotent | backend/api/market_data_routes.py:106 | parsing the re-joined result of a parse gives the same list |
| MarketDataRoutes.StrippedBlankParts | backend/api/market_data_routes.py:347 | parts made only of whitespace all drop out |
| MarketDataRoutes.BlankParsesEmpty | backend/api/market_data_routes.py:345-349 | a blank string parses to the empty list |
| MarketDataRoutes.PriceOf | backend/api/market_data_routes.py:121-132 | the row carries the ticker's symbol, the market and the shared timestamp; oracle price, open interest and funding default to 0 |
| MarketDataRoutes.PriceRows | backend/api/market_data_routes.py:118-135 | every row carries the one shared timestamp |
| MarketDataRoutes.PriceRowsFollowAnswers | backend/api/market_data_routes.py:118-135 | a symbol whose ticker fails is skipped; the rows are exactly the answered symbols' prices, in input order |
| MarketDataRoutes.FetchTickers | backend/api/market_data_routes.py:114-137 | the loop returns exactly `PriceRows`: one row per answered symbol, in input order, all with the one timestamp |
| MarketDataRoutes.GetMultiplePrices | backend/api/market_data_routes.py:97-142 | an empty list and more than 20 symbols each give their 400; otherwise the rows of the parsed symbols, all with one timestamp |
| MarketDataRoutes.ValidPeriodsAreTimeframes | backend/api/market_data_routes.py:166 | every period the routes accept is passed unchanged to the exchange (also backend/services/hyperliquid_market_data.py:199-215) |
| MarketDataRoutes.CheckCandleQuery | backend/api/market_data_routes.py:166-174 | the query passes exactly for one of the 14 periods and a count in 1..500; the period is checked first, each route with its own message (also lines 309-317) |
| MarketDataRoutes.ConvertItems | backend/api/market_data_routes.py:180-200 | the conversion loop copies each item, in order (also lines 323-342) |
| MarketDataRoutes.IndicatorResults | backend/api/market_data_routes.py:344-349 | a blank or comma-only indicator list computes nothing and gives {}; otherwise the indicators of the parsed list |
| MarketDataRoutes.GetKline | backend/api/market_data_routes.py:145-213 | a bad query gives its 400; a failed fetch 500 with the route's prefix and the exception's text; otherwise the fetched items, their count, the request's symbol, market and period, and indicators only on the indicators route (also lines 284-364) |
| MarketRegimeRoutes.ResponseDefault | backend/api/market_regime_routes.py:166-181 | every response default is non-zero |
| MarketRegimeRoutes.ResponseOf | backend/api/market_regime_routes.py:162-182 | id and name are copied, is_default is true exactly for a stored true, and every reported threshold is non-zero (also lines 214-234) |
| MarketRegimeRoutes.ReportedIsStoredOrDefault | backend/api/market_regime_routes.py:166-181 | a stored non-zero value is reported as stored; a NULL or 0 is reported as the column's default |
| MarketRegimeRoutes.StoredZeroTrapOiReportedAsDefault | backend/api/market_regime_routes.py:175 | a stored trap_oi_z of 0 is reported as -1.0 (also line 227) |
| MarketRegimeRoutes.ResponseStable | backend/api/market_regime_routes.py:162-182 | storing a response and reporting it again gives the same response |
| MarketRegimeRoutes.ListRegimeConfigs | backend/api/market_regime_routes.py:156-184 | one response per stored row, in order |
| MarketRegimeRoutes.PatchValues | backend/api/market_regime_routes.py:205-209 | a field given a non-None value takes it; every other column keeps its presence and its value |
| MarketRegimeRoutes.PatchedFields | backend/api/market_regime_routes.py:205-209 | after the patch a written field reads the new value and every other field, the id, name and flag read as before |
| MarketRegimeRoutes.PatchedIdempotent | backend/api/market_regime_routes.py:205-209 | applying the same update twice gives the row of one application |
| MarketRegimeRoutes.ZeroWriteReportsDefault | backend/api/market_regime_routes.py:208-209 | writing 0 stores 0, and the response then reports the column's default (also lines 214-234) |
| MarketRegimeRoutes.SetFields | backend/api/market_regime_routes.py:206-209 | the `setattr` loop over the columns patches exactly the given non-None fields |
| MarketRegimeRoutes.UpdateRegimeConfig | backend/api/market_regime_routes.py:193-243 | an unknown id gives 404 and writes nothing; otherwise only the found row is replaced by its patch and its response is returned |
| MarketRegimeRoutes.ResultSymbols | backend/api/market_regime_routes.py:141-143 | the symbols of the results, in order |
| MarketRegimeRoutes.ErrorSymbols | backend/api/market_regime_routes.py:151 | the symbols of the errors, in order (the error record is a different type from the result record, hence a second projection) |
| MarketRegimeRoutes.ResultSymbolsAppend | backend/api/market_regime_routes.py:141 | appending a result appends its symbol |
| MarketRegimeRoutes.ErrorSymbolsAppend | backend/api/market_regime_routes.py:151 | appending an error appends its symbol |
| MarketRegimeRoutes.Batch | backend/api/market_regime_routes.py:133-153 | results and errors together have one entry per input symbol; each result is its symbol's successful classification and each error its symbol's failure |
| MarketRegimeRoutes.BatchResultsFollowInput | backend/api/market_regime_routes.py:136-148 | the result symbols are exactly the succeeding input symbols, in input order |
| MarketRegimeRoutes.BatchErrorsFollowInput | backend/api/market_regime_routes.py:136-151 | the error symbols are exactly the failing input symbols, in input order |
| MarketRegimeRoutes.BatchPartition | backend/api/market_regime_routes.py:133-153 | every input symbol lands in exactly one of results or errors, order preserved |
| MarketRegimeRoutes.UnclassifiedIsAnError | backend/api/market_regime_routes.py:141-151 | a symbol answered by an early exit, which carries no indicators, lands in errors and not in results (also backend/services/market_regime_service.py:290-307) |
| MarketRegimeRoutes.GetRegimeBatch | backend/api/market_regime_routes.py:127-153 | the loop returns exactly `Batch`: every symbol in exactly one of results or errors, in input order |
| ConfigRoutes.Get | backend/api/config_routes.py:75 | `payload.get`: present and non-null exactly when it gives a value, which is the stored one (also line 83) |
| ConfigRoutes.AsInt | backend/api/config_routes.py:76 | `isinstance(v, int)` holds exactly for ints and bools (also line 84) |
| ConfigRoutes.ValidateUpdate | backend/api/config_routes.py:75-88 | the update passes exactly when each given value is an int within its range (interval 5..60, depth 10..60); a bad interval is answered with the interval 400, and an acceptable interval with a bad depth with the depth 400; a passed update carries exactly the given integers, within range |
| ConfigRoutes.BoolIntervalRefused | backend/api/config_routes.py:75-80 | JSON `true` passes the int check as 1 and is refused by the range check |
| ConfigRoutes.Applied | backend/api/config_routes.py:90-101 | an empty table gets one record with each given value or its default (18, 10) for a missing or 0 one; otherwise only the first record's given fields change |
| ConfigRoutes.AppliedIdempotent | backend/api/config_routes.py:90-101 | sending the same validated update twice leaves the table as the first time |
| ConfigRoutes.SamplingStore.GetGlobalSamplingConfig | backend/api/config_routes.py:46-64 | an empty table gets the default record (18, 10) with the next id; an existing table is untouched; the answer is the first record |
| ConfigRoutes.SamplingStore.UpdateGlobalSamplingConfig | backend/api/config_routes.py:67-131 | a refused value answers 400 and writes nothing; otherwise the table becomes the applied update and the first record is returned |
| ConfigRoutes.UpdateThenRead | backend/api/config_routes.py:90-126 | after a successful update the first record shows every given value, within its range |
| RegimeConfigs.AllFieldsListed | backend/api/market_regime_routes.py:80-97 | the column list names every threshold column |
| RegimeConfigs.FindConfig | backend/api/market_regime_routes.py:201 | the first row with the id; None exactly when no row has it |
| RegimeMigration.Rewrite | backend/database/migrations/create_market_regime_configs.py:43-66 | a non-default row is untouched; on a default row breakout_oi_z 0.3 becomes 0.1, trap_oi_z -1.0 becomes -0.5, and the taker pair 1.8/0.55 becomes 33/0.03 only when both match; nothing else changes |
| RegimeMigration.RewriteIdempotent | backend/database/migrations/create_market_regime_configs.py:43-66 | the three UPDATEs applied again change nothing |
| RegimeMigration.RewriteAll | backend/database/migrations/create_market_regime_configs.py:43-66 | every row is rewritten, in place and in order |
| RegimeMigration.MigrateSpec | backend/database/migrations/create_market_regime_configs.py:25-125 | afterwards the table exists and has a default row; an existing table's rows are rewritten, and a default row with the next id is appended exactly when none existed; a new table holds just that row |
| RegimeMigration.RewriteAllFixed | backend/database/migrations/create_market_regime_configs.py:43-66 | rows the UPDATEs leave alone come through unchanged |
| RegimeMigration.RewriteAllRowsFixed | backend/database/migrations/create_market_regime_configs.py:43-66 | every rewritten row is left alone by another rewrite |
| RegimeMigration.RewriteAllTwice | backend/database/migrations/create_market_regime_configs.py:43-66 | rewriting the table twice is rewriting it once |
| RegimeMigration.SettledIsFixed | backend/database/migrations/create_market_regime_configs.py:39-121 | a created table with a default row and nothing to rewrite is not changed by a run |
| RegimeMigration.FreshRun | backend/database/migrations/create_market_regime_configs.py:69-121 | on a fresh database a run creates the table holding only the inserted default row |
| RegimeMigration.DefaultRun | backend/database/migrations/create_market_regime_configs.py:39-103 | with a default row present, a run only rewrites the rows |
| RegimeMigration.AsWrittenSettlesAfterTwoRuns | backend/database/migrations/create_market_regime_configs.py:39-121 | as written, the table is settled after two runs and a third changes nothing (also line 26) |
| RegimeMigration.AsWrittenLookups | backend/database/migrations/create_market_regime_configs.py:113-120 | the INSERT writes breakout_oi_z 0.3, trap_oi_z -1.0, the taker pair 1.8/0.55 and breakout_price_atr 0.3 |
| RegimeMigration.AsWrittenRowRewrite | backend/database/migrations/create_market_regime_configs.py:43-66 | the UPDATEs turn the inserted row into the row with the four rewritten thresholds (also lines 113-120) |
| RegimeMigration.RewrittenInsertIsCorrected | backend/database/migrations/create_market_regime_configs.py:113-120 | the inserted values with the four rewrites applied are the redesigned defaults (also lines 17-22) |
| RegimeMigration.CorrectedInsertIsRewritten | backend/database/migrations/create_market_regime_configs.py:17-22 | rewriting the inserted default row gives the row with the redesigned defaults (also lines 43-66, 113-120) |
| RegimeMigration.CorrectedRowFixed | backend/database/migrations/create_market_regime_configs.py:17-22 | a default row holding the redesigned defaults is left alone by the UPDATEs (also lines 43-66) |
| RegimeMigration.FreshDatabaseNeedsTwoRuns | backend/database/migrations/create_market_regime_configs.py:69-121 | on a fresh database the first run leaves the pre-redesign 0.3 and -1.0 in the default row, and the second run changes the table again (also lines 26, 39) |
| RegimeMigration.AsWrittenIdempotentWithDefault | backend/database/migrations/create_market_regime_configs.py:39-103 | on a table that already has a default row a second run changes nothing |
| RegimeMigration.CorrectedMigrateIdempotent | backend/database/migrations/create_market_regime_configs.py:39-121 | inserting the redesigned defaults, every run settles the table and a second run changes nothing (also lines 17-26) |
| RegimeMigration.CorrectedMatchesTwoRunsOnFreshDatabase | backend/database/migrations/create_market_regime_configs.py:39-121 | on a fresh database one corrected run gives the table two runs as written give (also lines 17-22) |
| RegimeMigration.UpdateDefaults | backend/database/migrations/create_market_regime_configs.py:43-66 | the three UPDATE statements, one row at a time, rewrite every row and change nothing else |
| RegimeMigration.DefaultExists | backend/database/migrations/create_market_regime_configs.py:98-101 | the count query reports a default row exactly when one exists |
| RegimeMigration.Migrate | backend/database/migrations/create_market_regime_configs.py:25-125 | the table afterwards is `MigrateSpec` of the old one: created, every row rewritten in place, and a default row appended only when none existed |
| Text.Upper | backend/api/prompt_routes.py:274 | `str.upper()` on ASCII: same length, every letter a..z raised and every other character kept |
| Text.Strip | backend/api/market_data_routes.py:106 | `str.strip()`: never longer than the input, and the result neither starts nor ends with whitespace |
| Text.StripIsSlice | backend/api/market_data_routes.py:106 | the strip is the slice of the input that starts right after the leading whitespace |
| Text.StripCutsOnlySpace | backend/api/market_data_routes.py:106 | everything the strip cuts off, before and after the result, is whitespace |
| Text.Capitalize | backend/api/hyperliquid_routes.py:1118 | `str.capitalize()`: same length, the first character upper-cased and the rest lower-cased |
| Text.StripBlank | backend/api/market_data_routes.py:106 | stripping gives "" exactly when the string is all whitespace (also line 347) |
| Text.SplitJoin | backend/api/market_data_routes.py:106 | `split(',')` undoes joining parts that contain no ',' |

## Left out

- Network and exchange I/O are not modelled. This covers CCXT `fetch_ticker`/`fetch_ohlcv`/`load_markets`, `requests.post` to Hyperliquid and to the LLM endpoints, and the `sdk_exchange` order calls. Their answers are abstract parameters: functions returning `Option` or a reply datatype.
- Retry sleeps and random jitter in `analyze_kline_chart` are not modelled, because time has no meaning in the model. The attempts themselves are modelled.
- Floating point is not modelled: values are exact `real`s. This also leaves out `round(...)` and the string formatting (`:.2f`, `:,.0f`, `:+.2f`) in the k-line formatters, which are abstract number-to-text parameters.
- numpy is not modelled. The percentile is a function parameter. Mean, standard deviation, minimum and maximum of the signal statistics are left out, and the model states only which values they are computed over.
- `math.log` and `exp` in the regime service are uninterpreted function parameters. `backend/services/technical_indicators.py` is not part of this model; its only use is the abstract calculator parameter of `MarketDataRoutes.GetKline`.
- Private-key encryption and `eth_account` address derivation are partial-function parameters, because they are cryptography outside the rules modelled.
- Private-key decryption in `get_hyperliquid_client` is not modelled: `HyperliquidEnvironment.TradingStore.ClientKeyFor` returns the selected key still encrypted, so the `ValueError("Private key decryption failed")` path (backend/services/hyperliquid_environment.py:262-268) is not part of this model.
- `floor_timestamp`, `TIMEFRAME_MS`, `get_flow_indicators_for_prompt`, `get_cached_trading_client`, `prompt_repo`, `_build_prompt_context` and the cache clearers are not part of this model. They are parameters where a result depends on them and are left out otherwise.
- The sampling-pool reconfiguration after a sampling-config update (backend/api/config_routes.py:106-121) is left out, because the pool is not part of this model.
- ORM mechanics are not modelled: sessions, commit/rollback and SQL building. Tables are sequences of records in query order. The generic `except Exception` 500 answers are modelled only where they change what the caller sees: the switch route, the manual-order guard and the two k-line routes (`MarketDataRoutes.GetKline`).
- `datetime`, `utcnow`, `created_at`/`updated_at` and ISO date formatting are left out. Timestamps are integers given as inputs.
- The `CREATE TABLE` column defaults of the migration are not modelled. The created table is empty, and only the inserted row's values are modelled.
- The success return of `switch_hyperliquid_environment` uses an undefined `old_env` (backend/services/hyperliquid_environment.py:418-420). The state change committed before it is modelled, and the return is the failure outcome `CommittedReturnFailed`. No value is invented for it.
- Logging and `print`, `_disable_hip3_markets`, and builder-fee authorisation in the manual order are left out. The authorisation outcome is the `authorizationOk` parameter.
- `get_regime_for_symbol` (backend/api/market_regime_routes.py:100-124) is left out: it only forwards to `get_market_regime`, which is modelled.
- `get_last_price`, `check_symbol_tradability` and `get_market_status` in `backend/services/hyperliquid_market_data.py` are left out. They are thin wrappers over the ticker and market calls.
- The following files are not part of this model, because they hold plumbing, constants or DDL only:
  - `backend/services/market_data.py`;
  - `backend/config/prompt_templates.py`;
  - `backend/api/kline_analysis_routes.py`;
  - the DDL-only migrations.
- Case mapping and whitespace are ASCII only (`Text.Upper`, `Text.Lower`, `Text.IsSpace`). `Text.IsSpace` covers the ASCII whitespace Python strips (space, \t to \r, \x1c to \x1f); Python's Unicode whitespace and case tables beyond ASCII (\x85, \xa0, U+2000 onwards) are not modelled.
- The `debug` dict of `get_market_regime` (backend/services/market_regime_service.py:388-399, also lines 304, 315, 339) is left out: it only repeats rounded indicator values for display and no caller's decision depends on it.
- The auto-persist step of `get_kline_data` (backend/services/hyperliquid_market_data.py:247-252) is left out: it writes the fetched klines to the database, swallows its own errors, and does not change the returned klines.
- FundingSamples: states only that rows with a NULL rate drop out (at most one sample per row). The per-row conversion is stated by `MapValues`.
- OiSamples: states only that rows with a NULL open interest drop out (at most one sample per row).
- TakerRatios: states only the length bound. Its relation to the volumes is `TakerListsAligned`, and the loop's result is `TakerPairs`.
- HyperliquidEnvironment.TradingStore.SetupAccount: the encryption failure answers "Private key encryption failed" without the exception's text, because the encryption parameter returns None rather than the exception.
- HyperliquidRoutes.CheckWalletRequest: a failed address derivation answers "Invalid private key" without the exception's text (backend/api/hyperliquid_routes.py:907), because the derivation parameter returns None rather than the exception.
- HyperliquidRoutes.SwitchRouteStatus: gives the status of the switch answer only. The refusals of `switch_hyperliquid_environment` are the constructors of `SwitchRejection`, so their message texts are not modelled.
- PromptRoutes.TemplateFor: the template repository is not part of this model. Stored templates are keyed by strings, so an explicit null key is taken to match no template.
- ConvertItems: the `datetime` re-formatting of each item is not modelled. Items are copied field for field.

## Findings

| source | as written | input that shows it | evidently intended | confidence | as-written member | corrected member |
|---|---|---|---|---|---|---|
| backend/database/migrations/create_market_regime_configs.py:69-121 | on a database without the table, the first run creates it and inserts the pre-redesign thresholds (breakout_oi_z 0.3, trap_oi_z -1.0, taker 1.8/0.55). The UPDATEs run only when the table already existed (line 39), so the second run changes the row again, although the docstring (line 26) calls the migration idempotent | a fresh database (no market_regime_configs table) | insert the redesigned DEFAULT_* values, so that one run settles the table | not executed | RegimeMigration.FreshDatabaseNeedsTwoRuns | RegimeMigration.CorrectedMigrateIdempotent |
| backend/api/hyperliquid_routes.py:354-383 | the `HTTPException(400)` for a leverage above the environment's maximum is raised inside the `try` (lines 354-358), whose `except Exception` (lines 379-383) turns it into a 500 | a manual order with leverage max_leverage + 1 | answer 400 with the leverage message | not executed | HyperliquidRoutes.ManualOrderLeverageAnswers500 | HyperliquidRoutes.ManualOrderCorrected |
