# Binance trading bot — a verified model of its trading core

This project models the decision and bookkeeping core of a Binance spot
trading bot written in TypeScript. The bot keeps a set of "alt" coins and
one bridge coin (the quote currency, e.g. USDT). It watches one-minute
candles, asks a threshold component for the best conversion out of each
held asset, and carries out the conversion as an *operation* of one or two
*trades* (directly when the two coins form a market, otherwise through the
bridge), moving asset balances as the legs fill.

The model covers:

- the domain layer: coins and their market adjacency (`Coins`), assets
  (`Assets`), the coin registry (`CoinDicts`), order legs (`Trades`),
  operations (`Operations`) and the trader that picks opportunities and
  tracks active operations (`Traders`);
- the exchange mappers (`Mappers`): price-list folds, order-status names,
  step-size precision, kline and book-ticker field copies;
- the trader service rules (`TraderServices`): market names and candle
  symbols, order sizing and dispatch, the pending-order set, the per-tick
  evaluation;
- the repository and accountant services (`Repositories`, `Accountants`,
  `RatioTables`): pair discovery for coins without stored information, the
  bridge backfill of loaded balances, the price cache, and the shape of the
  initial ratio table;
- the exchange-client helpers shared by the Node and Deno clients
  (`ApiClients`): query strings, the API-key guard, order parameters and
  endpoints, request signing, stream names.

Supporting modules: `Wrappers` (Option/Result), `Dicts` (JavaScript plain
objects as insertion-ordered entry lists: assignment overwrites in place or
appends, `delete` splices, reads give the first entry for a key) and
`Strings` (`indexOf`, `includes`, ASCII `toLowerCase`, `join`).

Numbers are exact `real`s; the only rounding is the explicit floor of
`checkQuantity`. Coins are compared by identity in the source: `AltCoin` is
a class (reference equality) and the bridge is a value, one per program.
Callbacks are defunctionalised: a trade stores which handler it calls
(`FirstLegFilled` or `LastLegFilled(asset)`) and returns the notification;
`Operation.OnFilled` interprets it. `Threshold.findBestTrade` is not part of
this model; it is a parameter `best`. HMAC signing, `encodeURIComponent`,
the clock and the exchange's answers are parameters too.

## Model

| member | source | states |
|---|---|---|
| Coins.BridgeConstants | src/trade/domain/coin.entity.ts:12-17 | a bridge is always a bridge, valued 1 and trending 0 |
| Coins.AltCoin.constructor | src/trade/domain/coin.entity.ts:38-40 | a new coin has its code, no market data, no filters and no pairs |
| Coins.AltCoin.AddPair | src/trade/domain/coin.entity.ts:57-59 | the pair map gains (or overwrites) the other coin's code with the market, every other code is unchanged, and only this coin changes (one-sided) |
| Coins.AltCoin.HasPair | src/trade/domain/coin.entity.ts:61-63 | true exactly when the coin's code is registered |
| Coins.AltCoin.PairInfo | src/trade/domain/coin.entity.ts:72-74 | the registered market for the code, nothing when unregistered |
| Coins.AltCoin.AllPairs | src/trade/domain/coin.entity.ts:65-70 | exactly one entry per registered code, each with its registered base and quote |
| Coins.AltCoin.UpdateFilters | src/trade/domain/coin.entity.ts:76-79 | both filters are replaced by the given ones |
| Coins.AltCoin.CheckQuantity | src/trade/domain/coin.entity.ts:81-90 | fails without filters, below the minimum, and above a positive maximum, and succeeds exactly within those bounds; then the result is at most the quantity, within 10^-precision of it, and within the maximum |
| Coins.TruncateSpec | src/trade/domain/coin.entity.ts:88-89 | the truncation is below the quantity, closer than 10^-p, and a whole multiple of 10^-p |
| Coins.TruncatedAboveMinimum | src/trade/domain/coin.entity.ts:82-89 | a minimum on the precision grid survives truncation |
| Coins.TruncatedBelowMinimum | src/trade/domain/coin.entity.ts:81-90 | a minimum off the grid (0.015 at precision 2) lets an accepted quantity truncate below it |
| Coins.AltCoin.UpdateMarket | src/trade/domain/coin.entity.ts:92-101 | sets both the trend and the valuation |
| Coins.AltCoin.Ratio | src/trade/domain/coin.entity.ts:103-105 | defined exactly when both valuations are known and the divisor is nonzero; then ratio times divisor is this valuation |
| Assets.LooseEquals | src/trade/domain/asset.value-object.ts:34 | JavaScript `==` on numbers: NaN equals nothing |
| Assets.ValidateAsWritten | src/trade/domain/asset.value-object.ts:30-37 | rejects exactly the props without a coin, with prop "coin" |
| Assets.NaNBalanceAccepted | src/trade/domain/asset.value-object.ts:34-36 | a NaN balance passes the validation as written |
| Assets.Validate | src/trade/domain/asset.value-object.ts:30-37 | rejects exactly a missing coin (prop "coin") or a NaN balance (prop "balance") |
| Assets.ValidateRefinesAsWritten | src/trade/domain/asset.value-object.ts:30-37 | the corrected validation agrees on every rejection of the written one and adds only NaN balances |
| Assets.NewAsset | src/trade/domain/asset.value-object.ts:10-20 | fails with the validation error exactly when invalid; otherwise a fresh asset holding the props' coin and balance |
| Assets.Asset.constructor | src/trade/domain/asset.value-object.ts:10-12 | the asset holds the given coin and balance |
| Assets.Asset.IsBridge | src/trade/domain/asset.value-object.ts:22-24 | true exactly for the bridge coin |
| Assets.Asset.PairWith | src/trade/domain/asset.value-object.ts:26-28 | always true for the bridge; for an alt coin, true exactly when the target is registered as its pair |
| CoinDicts.CodeEntries | src/trade/domain/coin-dict.entity.ts:12-14 | one `code: coin` entry per input coin, in order |
| CoinDicts.RegistryWellKeyed | src/trade/domain/coin-dict.entity.ts:12-14 | the registry has distinct keys and stores each coin under its own code |
| CoinDicts.RegistryLastWins | src/trade/domain/coin-dict.entity.ts:12-14 | a code is registered to the last input coin with that code |
| CoinDicts.RegistryCodes | src/trade/domain/coin-dict.entity.ts:12-14 | the registered codes are exactly the input codes |
| CoinDicts.CoinDict.constructor | src/trade/domain/coin-dict.entity.ts:12-14 | the registry built by the fold |
| CoinDicts.CoinDict.Get | src/trade/domain/coin-dict.entity.ts:30-32 | the coin registered under the code, with that code; nothing for an unknown code |
| CoinDicts.CoinDict.ToList | src/trade/domain/coin-dict.entity.ts:16-18 | exactly one coin per registered code, each the one `get` returns |
| CoinDicts.CoinDict.ToDict | src/trade/domain/coin-dict.entity.ts:20-22 | a map value (a copy) agreeing with `get` on every code |
| CoinDicts.FirstUnknown | src/trade/domain/coin-dict.entity.ts:25-27 | the index of the first update whose code is unregistered; all before it are known |
| CoinDicts.LastUpdate | src/trade/domain/coin-dict.entity.ts:24-28 | the last update naming a code, nothing when none does |
| CoinDicts.LastUpdateSnoc | src/trade/domain/coin-dict.entity.ts:24-28 | a later update for a code supersedes the earlier ones |
| CoinDicts.CoinDict.UpdateCoins | src/trade/domain/coin-dict.entity.ts:24-28 | fails at the first unknown code; every registered coin carries the last update for it before that point, the others are unchanged; only trend and valuation change, pairs and filters are kept |
| Trades.OrientCoversPair | src/trade/domain/trade.entity.ts:43-70 | bridge source: BUY of the target; bridge target: SELL of the source; otherwise the registered pair decides; base and quote are the two coins and the side is SELL exactly when the source is the base |
| Trades.FromToFollowsCoins | src/trade/domain/trade.entity.ts:136-143 | each side of the converted fill is the amount of that side's own coin |
| Trades.FromToMatchesFills | src/trade/domain/operation.entity.spec.ts:20-24 | a SELL of {base -10, quote 20} and a BUY of {base 20, quote -10} both read as from -10, to 20 |
| Trades.HandleStatus | src/trade/domain/trade.entity.ts:125-134 | FILLED notifies with the converted amounts, PARTIALLY_FILLED notifies without, every other status is silent |
| Trades.Trade.constructor | src/trade/domain/trade.entity.ts:43-70 | the trade holds from, to, amount and handler, is oriented per its coins, and has no order state |
| Trades.Trade.MarketName | src/trade/domain/trade.entity.ts:101-103 | base code followed by quote code, when both are known |
| Trades.Trade.UpdateAfterInit | src/trade/domain/trade.entity.ts:72-79 | records amount, price, status and order id, and notifies per the status |
| Trades.Trade.Update | src/trade/domain/trade.entity.ts:81-87 | records amount, price and status, keeps the order id, and notifies per the status |
| Operations.AmountFactor | src/trade/domain/operation.entity.ts:62-71 | 0.25 up to growth 1.15, 0.35 up to 1.3, 0.5 above |
| Operations.ComputeAmount | src/trade/domain/operation.entity.ts:62-71 | the balance times the factor, never more than half a non-negative balance |
| Operations.ComputeAmountMonotone | src/trade/domain/operation.entity.ts:62-71 | the amount grows with the ratio growth |
| Operations.Operation.constructor | src/trade/domain/operation.entity.ts:23-29 | holds the asset, target and bridge asset, with the computed amount and no trades |
| Operations.Operation.Start | src/trade/domain/operation.entity.ts:31-48 | with a direct pair, one trade asset→target settling on the asset; otherwise a trade asset→bridge that continues on fill |
| Operations.Operation.HandleFirstTradeFilled | src/trade/domain/operation.entity.ts:73-85 | on a fill the asset gains `from`, the bridge gains `to`, and a second trade bridge→target for the bridge's whole balance is built; on a partial fill nothing changes |
| Operations.Operation.HandleLastTrade | src/trade/domain/operation.entity.ts:87-94 | on a fill the leg's source gains `from` and the operation finishes with `to`; otherwise nothing |
| Operations.Operation.OnFilled | src/trade/domain/operation.entity.ts:73-94 | a silent or amount-less notification changes no balance and neither continues nor finishes; a fill dispatches to the leg's handler |
| Operations.BridgeScenario | src/trade/domain/operation.entity.spec.ts:83-134 | a two-leg operation through the bridge ends with the expected balances after two trades |
| Operations.DirectScenario | src/trade/domain/operation.entity.spec.ts:9-82 | a one-leg operation on a direct or inverse pair ends with the expected balances, market and side |
| Traders.Kept | src/trade/domain/trader.entity.ts:30-43 | exactly the props that build an asset |
| Traders.FirstError | src/trade/domain/trader.entity.ts:30-43 | the first corrected-validation error other than a missing coin (a NaN balance), which the corrected constructor rethrows |
| Traders.FirstErrorIffNaN | src/trade/domain/trader.entity.ts:19-43 | the corrected constructor rethrows exactly when some props hold a coin and a NaN balance, and keeps the props the written validation keeps minus those; as written nothing but a missing coin is ever rejected, so nothing is rethrown |
| Traders.LastBridge | src/trade/domain/trader.entity.ts:19-29 | the last kept bridge props, and nothing exactly when no kept props hold the bridge |
| Traders.FirstErrorPrefix | src/trade/domain/trader.entity.ts:19-43 | an error found in a prefix is the error of the whole list |
| Traders.BridgeListedTwice | src/trade/domain/trader.entity.ts:30-43 | the bridge props are also among the kept assets, so `assets` lists the bridge twice |
| Traders.NewTrader | src/trade/domain/trader.entity.ts:18-45 | fails with the first rethrown error; otherwise fresh assets for the kept props, the last bridge as bridge asset, no operations |
| Traders.ScanBridge | src/trade/domain/trader.entity.ts:19-29 | the first loop: the last valid bridge asset, or the first rethrown error |
| Traders.RebuildAssets | src/trade/domain/trader.entity.ts:30-43 | one fresh asset per kept props, in order |
| Traders.Candidates | src/trade/domain/trader.entity.ts:48-56 | assets not in an active operation whose best score exceeds 1, with that target and score |
| Traders.CandidatesInAssetOrder | src/trade/domain/trader.entity.ts:48-56 | the candidates of a concatenation are those of each part in order, and one asset yields its candidate exactly when it is free and scores above 1 |
| Traders.BestOf | src/trade/domain/trader.entity.ts:57-60 | a candidate of maximum score; on ties, the later one |
| Traders.ReduceFromUndefinedThrows | src/trade/domain/trader.entity.ts:57-60 | the reduce as written throws exactly when there is a candidate |
| Traders.Trader.EvaluateMarket | src/trade/domain/trader.entity.ts:47-69 | nothing exactly when no candidate; otherwise a candidate of maximum score (on ties the later one), free of active operations, scoring above 1 |
| Traders.Trader.EvaluateMarketAsWritten | src/trade/domain/trader.entity.ts:47-69 | throws exactly when the corrected evaluation finds a candidate, otherwise nothing |
| Traders.Trader.constructor | src/trade/domain/trader.entity.ts:12-16 | the given assets and bridge asset, no operations |
| Traders.Trader.AddOperation | src/trade/domain/trader.entity.ts:71-72 | appends the operation, without starting it |
| Traders.FindIndex | src/trade/domain/trader.entity.ts:74 | the first index of the element, -1 when absent |
| Traders.SpliceFound | src/trade/domain/trader.entity.ts:74-75 | splicing at the found index removes exactly that occurrence |
| Traders.SpliceMissingDropsLast | src/trade/domain/trader.entity.ts:74-75 | `splice(-1, 1)` on a missing operation drops the last one |
| Traders.FindAsset | src/trade/domain/trader.entity.ts:77-78 | the first asset holding the coin, -1 when none |
| Traders.Trader.Settle | src/trade/domain/trader.entity.ts:73-81 | the finish handler: removes the operation by identity and sets (not adds to) the target asset's balance; no other balance changes |
| Traders.Trader.AssetsView | src/trade/domain/trader.entity.ts:88-94 | every asset's coin and balance, then the bridge asset's |
| Mappers.PriceEntries | src/broker/binance.orm-mapper.ts:8-11 | one `symbol: price` entry per listed price, in order |
| Mappers.PricesKeys | src/broker/binance.orm-mapper.ts:8-11 | the dictionary's keys are exactly the listed symbols |
| Mappers.PricesLastWins | src/binance/binance.orm-mapper.ts:7-10 | a repeated symbol maps to its last price, unparsed |
| Mappers.PricesEmpty | utils.ts:5-6 | the dictionary is empty exactly for the empty list |
| Mappers.StatusRoundTrip | src/broker/binance.orm-mapper.ts:27-44 | each of the seven status names maps to its status and no other string does |
| Mappers.StepBelowOne | src/broker/binance.orm-mapper.ts:46-52 | a step "0.0…01…" with k zeros after the point has precision k+1 |
| Mappers.StepAtLeastOne | src/broker/binance.orm-mapper.ts:46-52 | a step "10…0.…" with k zeros before the point has precision -k |
| Mappers.StepExamples | src/broker/binance.orm-mapper.ts:46-52 | "1.00000000"→0, "10.00"→-1, "0.01000000"→2, "0.1"→1, no '1'→-2, "1"→2 |
| Mappers.PrettifyKlinesRoundTrip | src/binance/binance.orm-mapper.ts:17-24 | `E`, `s`, `k.o`, `k.c`, `k.h`, `k.l` become timestamp, coin, open, close, high, low, unparsed; on those six fields the copy is invertible |
| RatioTables.RowEntries | src/trade/repository/repository.service.ts:200-209 | a row holds every other listed coin with its cell and never the coin itself |
| RatioTables.TableShape | src/trade/repository/repository.service.ts:197-211 | each listed coin has a row holding exactly the other listed coins, with their cells |
| RatioTables.TableKeys | src/trade/repository/repository.service.ts:197-211 | the table's rows are exactly the listed coins |
| RatioTables.RatioTableCells | src/trade/repository/repository.service.ts:194-211 | the cell of two distinct coins is the ratio of their bridge prices |
| Repositories.Missing | src/trade/repository/repository.service.ts:51-69 | exactly the coins without stored information, in order |
| Repositories.CollectMissing | src/trade/repository/repository.service.ts:51-69 | the partition loop pushes exactly the missing coins |
| Repositories.PairMarket | src/trade/repository/repository.service.ts:162-172 | the market found is made of the two coins |
| Repositories.PairMarketSpec | src/trade/repository/repository.service.ts:162-172 | a market is found exactly when one concatenation is listed, and the first listed one decides the base |
| Repositories.PairMarketSymmetric | src/trade/repository/repository.service.ts:162-172 | with distinct concatenations, both orders find the same market |
| Repositories.LastMatchSpec | src/trade/repository/repository.service.ts:159-177 | the surviving market is the last partner's market found |
| Repositories.RegisterPair | src/trade/repository/repository.service.ts:174-175 | the two `addPair` calls register the market on both coins |
| Repositories.AddPairsAsWritten | src/trade/repository/repository.service.ts:153-179 | every match is registered between the coin and `list[i]`; only the last match survives |
| Repositories.InfoPrefixSpec | src/trade/repository/repository.service.ts:73-81 | the loop gets through exactly the missing coins before the first whose bridge market is unlisted or lacks a PRICE_FILTER or LOT_SIZE filter |
| Repositories.LoadPairsAsWritten | src/trade/repository/repository.service.ts:73-95 | each coin before the first one without bridge market information gains at most one entry, under its own code; the coins from it on are untouched |
| Repositories.PartnersSpec | src/trade/repository/repository.service.ts:159-177 | the coin learns exactly the partners with a market, each under its own market |
| Repositories.PairersSpec | src/trade/repository/repository.service.ts:174-175 | from the earlier coins' rounds a coin receives exactly the markets of the earlier partners, each under that partner's code |
| Repositories.AddPairs | src/trade/repository/repository.service.ts:153-179 | the coin gains every later partner's market, and each partner gains the coin's |
| Repositories.LoadPairs | src/trade/repository/repository.service.ts:73-95 | the rounds stop at the first coin without bridge market information; every market between a reached coin and a later coin ends up on both coins; a reached coin ends with exactly its old pairs plus its earlier and later partners' markets, an unreached one with its old pairs plus the reached partners' markets |
| Repositories.PairCoin | src/trade/repository/repository.service.ts:73-95 | one round: the current coin gains its later partners' markets, each later partner gains the coin's market, earlier coins are unchanged, and the new pairs are reciprocal |
| Repositories.PairedBothWays | src/trade/repository/repository.service.ts:73-95 | after all rounds two coins with a market each hold the other's code mapped to that market |
| Repositories.PairedWithUnreached | src/trade/repository/repository.service.ts:73-95 | a reached coin and a later unreached coin with a market each hold the other's code mapped to that market |
| Repositories.LoadedPairs | src/trade/repository/repository.service.ts:73-95 | after the rounds of the reached coins, each coin's final pair map and the reciprocity of every market made |
| Repositories.MissingPairsScenario | src/trade/repository/repository.service.spec.ts:182-183 | with ADADASH and both USDT bridge markets listed with their filters, as written neither learns of the other and ADA records itself; corrected, both learn of each other |
| Repositories.BalancesProps | src/trade/repository/repository.service.ts:127-145 | one props per balance, in order |
| Repositories.LoadAssets | src/trade/repository/repository.service.ts:125-151 | the balances' props in order, then one zero bridge entry exactly when no balance is the bridge; the bridge is always present |
| Repositories.LoadedAssetsMakeTrader | src/trade/repository/repository.service.ts:101-151 | numeric balances always build a trader, and it has a bridge asset |
| Repositories.PriceCache.constructor | src/trade/repository/repository.service.ts:25 | the cache starts empty |
| Repositories.PriceCache.Prices | src/trade/repository/repository.service.ts:181-192 | the first call stores the fetched dictionary; later calls return the stored one |
| Repositories.PricesFetchedOnce | src/trade/repository/repository.service.ts:181-192 | two reads give the first fetch's prices |
| TraderServices.MarketRoundTrip | src/trade/trader/trader.service.ts:93-117 | with a non-empty bridge code, slicing a coin's market gives back its code |
| TraderServices.EmptyBridgeLosesCode | src/trade/trader/trader.service.ts:93 | with an empty bridge code every symbol maps to "" |
| TraderServices.CandleToUpdate | src/trade/trader/trader.service.ts:89-97 | valued at the close, trending by close minus open, for the symbol's coin |
| TraderServices.CandleUpdateAsWritten | src/trade/trader/trader.service.ts:82-99 | no raw kline event becomes an update: the lookup by the missing `coin` field throws, or the later `slice` does |
| TraderServices.CandleUpdate | src/trade/trader/trader.service.ts:82-97 | once converted, an event of a subscribed market becomes an update of its symbol's coin, valued at the parsed close and trending by close minus open; an unsubscribed symbol throws |
| TraderServices.CandleUpdatesItsCoin | src/trade/trader/trader.service.ts:82-117 | a candle from a coin's own market never updates anything as written; converted, it updates that coin with a non-empty bridge code and the coin "" with an empty one |
| TraderServices.OrderFor | src/trade/trader/trader.service.ts:139-157 | placed exactly for an alt base (and a nonzero price for a BUY); a LIMIT order on base+quote at the price, sized by `checkQuantity` of the amount (SELL) or amount/price (BUY) |
| TraderServices.OrderWithinAmount | src/trade/trader/trader.service.ts:146-156 | a SELL never sells more than the amount, a BUY at a positive price never costs more |
| TraderServices.TrackAfterInit | src/trade/trader/trader.service.ts:167-178 | CANCELED and FILLED orders are not tracked; every other status is added |
| TraderServices.ExecuteTrade | src/trade/trader/trader.service.ts:139-179 | throws without a market; otherwise records the exchange's report (or the canceled report on any failure) and tracks or notifies per its status |
| TraderServices.FailedPlacementIsCanceled | src/trade/trader/trader.service.ts:158-170 | a failed placement is canceled, silent and untracked |
| TraderServices.ScanStep | src/trade/trader/trader.service.ts:200-210 | ADD inserts, REMOVE deletes |
| TraderServices.PendingIffLastAdd | src/trade/trader/trader.service.ts:199-211 | a trade is pending exactly when its last action was ADD |
| TraderServices.PollAction | src/trade/trader/trader.service.ts:186-192 | REMOVE exactly on FILLED |
| TraderServices.DeadOrdersStayPending | src/trade/trader/trader.service.ts:186-216 | any run of CANCELED, EXPIRED and REJECTED reports emits no action, so the order stays in the pending set and polling goes on |
| TraderServices.PollTrade | src/trade/trader/trader.service.ts:181-196 | REMOVE on FILLED; the report is applied either way, keeping the order id |
| TraderServices.StatusOrdinalInjective | src/trade/domain/trade.entity.ts:3-11 | the numeric enum gives distinct statuses distinct values |
| TraderServices.TrackAfterInitAsWritten | src/trade/trader/trader.service.ts:158-178 | comparing the exchange's string status with the numeric enum tracks every answered placement, FILLED included, and only the caught failure is untracked |
| TraderServices.HandleStatusAsWritten | src/trade/domain/trade.entity.ts:125-134 | a string status never calls back; a numeric one calls back as the converted status does |
| TraderServices.PollActionAsWritten | src/trade/trader/trader.service.ts:186-192 | the string status never equals FILLED, so a poll never REMOVEs |
| TraderServices.PollActionConverted | src/trade/trader/trader.service.ts:186-192 | with `statusToEnum` applied first, REMOVE exactly when the exchange says "FILLED" |
| TraderServices.PollsAsWrittenEmitNothing | src/trade/trader/trader.service.ts:181-196 | any sequence of status answers emits no action as written |
| TraderServices.PlacedOrderStaysPending | src/trade/trader/trader.service.ts:167-219 | as written an answered placement is ADDed and stays pending through any other trades' actions and any polls, so polling never stops |
| TraderServices.Tick | src/trade/trader/trader.service.ts:119-137 | all updates first (every registered coin ends with its last update before any unknown code, pairs and filters kept), then one evaluation; at most one operation is added, unstarted, for the best candidate with the amount `computeAmount` gives, and none when an update fails |
| Accountants.SupportedCoinsDistinct | src/trade/accountant/accountant.service.ts:14-30 | fifteen distinct supported codes |
| Accountants.Accountant.constructor | src/trade/accountant/accountant.service.ts:32-38 | the broker count and bridge from the options, no table yet |
| Accountants.Accountant.CoinList | src/trade/accountant/accountant.service.ts:44-46 | the supported codes, same order |
| Accountants.Accountant.CoinBridgeList | src/trade/accountant/accountant.service.ts:48-50 | each supported code followed by the bridge code, same order |
| Accountants.BridgeListRoundTrip | src/trade/accountant/accountant.service.ts:48-50 | dropping the bridge code from each market gives back the supported list |
| Accountants.Replicate | src/trade/accountant/accountant.service.ts:82 | n copies of the same table |
| Accountants.Accountant.InitializeRatioCoinsTable | src/trade/accountant/accountant.service.ts:61-88 | the stored table is `brokerCount` copies of the ratio table of the supported coins |
| Accountants.InitialTableShape | src/trade/accountant/accountant.service.ts:66-82 | every copy has a row per supported coin, with the ratio to every other coin and no diagonal |
| ApiClients.RequireApiSecret | src/broker/binance-api-client.ts:232-242 | true exactly with key and secret; a missing key is reported before a missing secret; it throws when fatal and returns false otherwise |
| ApiClients.DenoDefaultsCannotSign | binanceApi.ts:131-140 | the Deno defaults' empty key fails the guard |
| ApiClients.QueryStringify | src/broker/binance-api-client.ts:86-100 | the loop yields the '&'-join of the `key=enc(value)` parts |
| ApiClients.QueryPartsAppend | binanceApi.ts:168-182 | the parts of two objects are the parts of each, in key order |
| ApiClients.QueryEmptyIff | src/broker/binance-api-client.ts:86-100 | the query is empty exactly when every value is undefined or an empty array |
| ApiClients.SilentIff | src/broker/binance-api-client.ts:90-95 | no part is emitted exactly when every value is undefined or an empty array |
| ApiClients.OrderEndpoint | src/broker/binance-api-client.ts:361-362 | "v3/order", with "/oco" exactly for type OCO and "/test" exactly in test mode |
| ApiClients.DefaultEndpoints | binanceApi.ts:380-381 | Deno's default options send orders to "/test", Node's do not |
| ApiClients.LimitTypes | src/broker/binance-api-client.ts:370 | LIMIT and LIMIT_MAKER contain "LIMIT"; MARKET, STOP_LOSS, OCO and no type do not |
| ApiClients.MergedParams | src/broker/binance-api-client.ts:363-369 | the defaults overridden by the flags, and a type always present |
| ApiClients.BuildOrder | src/broker/binance-api-client.ts:353-393 | fails exactly on a stop price with type LIMIT; otherwise the endpoint URL and the merged params with price/timeInForce per LIMIT type, OCO's stopLimitTimeInForce and no type, every other key kept |
| ApiClients.StampedSpec | src/broker/binance-api-client.ts:327-333 | the timestamp and receive window are set, no key is lost |
| ApiClients.SignedPost | src/broker/binance-api-client.ts:327-351 | fails exactly without key or secret; otherwise a POST to the URL with the key whose body is the stamped query followed by its signature |
| ApiClients.SignatureAppended | binanceApi.ts:355-370 | the signed body is the query, "&signature=" and the encoded signature |
| ApiClients.Order | src/broker/binance-api-client.ts:353-423 | the stop-price guard comes before the key guard; success posts to the endpoint URL with the API key, and the body is the query of the stamped built params followed by the signature of that query |
| ApiClients.OrderParamsMap | src/broker/binance-api-client.ts:363-393 | the built params have one entry per key and are the merged params rewritten per type |
| ApiClients.ParamsMapSpec | src/broker/binance-api-client.ts:370-391 | OCO drops `type`; LIMIT types and OCO set the price; LIMIT but not LIMIT_MAKER sets timeInForce GTC; OCO sets stopLimitTimeInForce GTC; every other key keeps its merged value |
| ApiClients.Candlesticks | src/broker/binance-api-client.ts:440-466 | one stream for a symbol, one per element for an array, each the lowercased symbol, "@kline_" and the interval |
| ApiClients.OneElementList | binanceApi.ts:444-460 | a one-element array asks for the bare symbol's stream over the combined socket |
| ApiClients.KlineStreamCase | binanceApi.ts:453-457 | two symbols share a kline stream exactly when they agree up to case |
| ApiClients.BookTickerStreamCase | src/broker/binance-api-client.ts:425-426 | two symbols share a book-ticker stream exactly when they agree up to case |
| ApiClients.ConvertRoundTrip | src/broker/binance-api-client.ts:212-230 | the book-ticker conversion renames every field and loses nothing |

## Left out

- Network and socket I/O, `fetch` timeouts, reconnect handlers, rxjs streams (`zip`, `interval`, `withLatestFrom`) and promise scheduling are not modelled; each rule they carry is a method or function taking as a parameter the value the stream or promise delivers. Where the source passes the exchange's raw answer on unconverted, the main members take the converted value; the lines below and the Findings say where.
- HMAC-SHA256 signing, `encodeURIComponent`, the clock and `Number.parseFloat` are parameters (`sign`, `enc`, `now`) or exact reals.
- Floating point: numbers are exact reals; the 10^10-scaled `ratio` helper is a parameter of the ratio table.
- File reads and writes of the repository and accountant services (coin information, the ratio table, the supported-coin list) are not modelled; the table is what would be written.
- `Threshold.findBestTrade` and `updateRatios` do not exist in the shown code; the score is the parameter `best`, with the fee 0.001.
- Traders.Trader.constructor: `operations` starts empty; the source never initialises it, so `evaluateMarket` and `addOperation` would throw on `undefined`.
- Assets.NewAsset: applies the corrected validation (`Assets.Validate`), so it rejects a NaN balance that `new Asset` accepts as written (`Assets.NaNBalanceAccepted`); an asset's balance is a real, so a NaN balance cannot be held.
- Traders.NewTrader: built on the corrected validation, it fails on props with a coin and a NaN balance (such as a balance whose `free` does not parse), where the source constructor keeps that asset; `Traders.FirstErrorIffNaN` states exactly where the two differ.
- Traders.Kept: drops props with a NaN balance, which the source turns into assets.
- Traders.FirstError: the corrected construction's error; as written the constructor rethrows nothing.
- Traders.ScanBridge: its failure is the corrected NaN-balance error, which the first loop never throws as written.
- Traders.RebuildAssets: requires that no props hold a coin and a NaN balance, the condition under which the corrected first loop did not throw.
- Assets.Asset.constructor: `balance` is a mutable field; the source declares only a getter, yet `Operation` and `Trader` assign to it.
- Traders.Trader.AddOperation: the finish handler is not installed as a callback; `Trader.Settle` is the handler, called with the operation and the target balance.
- Operations.Operation.Start: no production code calls `start` (only the operation tests do); it is modelled as written, and fails when the trade needs the bridge and there is no bridge asset (the source would dereference `undefined`).
- Trades.Trade.MarketName: nothing when base or quote is unknown (an unregistered alt/alt pair), where the source would throw.
- TraderServices.OrderFor: a zero price fails a BUY, where JavaScript would divide to Infinity or NaN.
- Dicts: JavaScript enumerates integer-like keys first; the model keeps insertion order for every key.
- Strings.Lower: ASCII letters only.
- ApiClients.QueryStringify: values are strings, numbers, undefined or arrays; `null` and nested objects are not modelled.
- ApiClients.BuildOrder: the flags' `type`, when given, is one of LIMIT, LIMIT_MAKER, MARKET, STOP_LOSS or OCO; the key order of the built params is not stated, only their contents.
- ApiClients.SignedPost: only the POST path with data in the signature; the GET path and `noDataInSignature` are not modelled; only the API-key header is kept.
- Client options: neither constructor merges defaults (Node copies its props, Deno keeps `userOptions`); the model takes the options as given.
- The three identical price-list folds (both mappers' `pricesListToDict` and `utils.ts`'s `pricesListToObj`) are modelled once as `Mappers.PricesListToDict`.
- `loadCoinInfos` calls `updateFilters` with two arguments where it takes one object, on both the stored-information path and the exchange path (src/trade/repository/repository.service.ts:55-58 and 82-93), so every coin ends without filters; in the running program every `checkQuantity` then throws and every `executeTrade` ends CANCELED. Applying stored coin information and exchange filters is not modelled; `Coins.AltCoin.UpdateFilters` models the one-object signature.
- TraderServices.Tick: `best` reads the scores after the coin updates, as a fixed function of the coin and fee. Tick uses the corrected `Traders.Trader.EvaluateMarket` and an operation list that starts empty; as written, any candidate makes `evaluateMarket` throw (`Traders.ReduceFromUndefinedThrows`) and `operations` is never initialised.
- TraderServices.CandleToUpdate: takes a candle already converted by the broker's `prettifyKlines`, which nothing calls; as written the raw event reaches the subjects and no candle becomes an update (`TraderServices.CandleUpdateAsWritten`).
- TraderServices.OrderFor: takes the quoted price as a number; as written `price` resolves the exchange's `{symbol, price}` object, so a SELL sends that object as the price and a BUY's quantity is NaN. Neither value is modelled.
- TraderServices.ExecuteTrade: `price` is the parsed price and `place` returns the converted report (numeric status, id, amounts and price). As written the raw answer is stored unconverted, so every answered placement is tracked (`TraderServices.TrackAfterInitAsWritten`) and none calls back (`TraderServices.HandleStatusAsWritten`). The trade fields holding the raw answer's strings and missing `id`/`amount` are not modelled.
- TraderServices.PollTrade: the report is the converted one; as written the string status never equals FILLED, so no poll removes an order (`TraderServices.PollsAsWrittenEmitNothing`), and the raw answer stored on the trade is not modelled.
- Coins.AltCoin.Ratio: `None` stands for the JavaScript results Infinity and NaN (a zero divisor or a missing valuation), which are not modelled as numbers.
- Repositories.LoadPairsAsWritten, Repositories.LoadPairs: the throw at the first coin without bridge market information (src/trade/repository/repository.service.ts:76, 84 and 89) is modelled only as the end of the rounds; it rejects a promise nothing awaits, so `loadCoinInfos` still returns the coins, and that rejection is not modelled. `filtered` stands for the listed markets whose information carries both filters; the filter values themselves are not read.
- Mappers.PrettifyKlines: the event's other fields (`e`, and the kline's `t`, `T`, `s`, `i`, `f`, `L`, `v`, `n`, `x`, `q`, `V`, `Q`, `B`) are dropped by the source and are not modelled, so the round trip covers only the six fields it copies.
- Repositories.AddPairs: the corrected scan starts after the coin itself, since pairing a coin with itself never matches a listed symbol.
- `server.ts` (a top-level script duplicating the ratio-table construction) and the NestJS wiring are not part of this model.

## Findings

| source | as written | input that shows it | evidently intended | confidence | as-written member | corrected member |
|---|---|---|---|---|---|---|
| src/trade/domain/asset.value-object.ts:34 | `balance == NaN` is never true | props with a coin and balance NaN are accepted | reject a NaN balance with prop "balance" | not executed | Assets.NaNBalanceAccepted | Assets.Validate |
| src/trade/domain/trader.entity.ts:57-60 | `reduce` seeded with `undefined` reads `acc.trade` on the first candidate | any asset whose best score exceeds 1 | the candidate of maximum score | not executed | Traders.ReduceFromUndefinedThrows | Traders.Trader.EvaluateMarket |
| src/trade/repository/repository.service.ts:174-175 | registers the market between `coin` and `list[i]` (the coin itself) | ADA and DASH without stored information, ADADASH listed | register between `coin` and `list[index]` on both coins | not executed | Repositories.MissingPairsScenario | Repositories.LoadPairs |
| src/trade/trader/trader.service.ts:167-194 | `res.status`, the exchange's string such as "FILLED", is compared with `===` to the numeric `TradeStatus.CANCELED` and `TradeStatus.FILLED`; `statusToEnum` is never applied | an order the exchange answers FILLED | convert the status first: a FILLED placement is not tracked and a FILLED poll REMOVEs the order | not executed | TraderServices.PlacedOrderStaysPending | TraderServices.PollActionConverted |
| src/trade/trader/trader.service.ts:82-84 | `rawCandleSubjects[candle.coin]` on the raw kline event, which has no `coin` field | any kline event of a subscribed market | convert with `prettifyKlines` first and route by symbol | not executed | TraderServices.CandleUpdateAsWritten | TraderServices.CandleUpdate |
