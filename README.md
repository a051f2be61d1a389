# Compound v2 subgraph: the state-reconciliation core in Dafny

This project models the event-processing core of the Compound v2 subgraph.
That core is an indexer. Each chain event loads or creates entities in a
key/value store. It then re-derives their fields from contract reads pinned to
the event's block.

- **The store.** `EntityStore.Store` is a class with one map per entity type,
  and the protocol is an `Option` singleton. `EntityStore.StoreState` is the
  value of the whole store.
- **Handlers and helpers.** Each one is an imperative `method` on the `Store`.
  Its `ensures` ties the new snapshot to a pure state function of the old
  snapshot (`...State`). The lemmas state the source's promises about those
  functions.
- **The store invariant.** `EntityStore.Valid` requires:
  - the protocol id is `"1"`;
  - a market is stored exactly when the protocol lists it;
  - every entity is stored under its own id;
  - every position names a stored user and market;
  - every bucket names a stored market;
  - every event record names stored positions.

  A lemma shows that each handler preserves it.
- **Contract reads.** They are the arrow fields of `Contracts.Chain`, functions
  of (contract, [argument,] block). The `try_*` reads return `Option`, which is
  `None` on a revert.
- **Numbers.** BigDecimal values are exact `real`s.

The modules follow the source files:

| module | file |
|---|---|
| `Utils` | `src/utils/utils.ts` |
| `Oracle` | `src/mapping-helpers/oracle.ts` |
| `MarketHelpers` | `src/mapping-helpers/market.ts` |
| `LegacyMarket` | `src/market.ts` |
| `ProtocolHelpers` | `src/mapping-helpers/protocol.ts` |
| `UserHelpers` | `src/mapping-helpers/user.ts` |
| `UserMarketHelpers` | `src/mapping-helpers/userMarket.ts` |
| `HistoricalData` | `src/mapping-helpers/historical-data.ts` |
| `Comptroller` | `src/mapping/comptroller.ts` |
| `CTokenHandlers` | `src/mapping/ctoken.ts` |

`Constants` holds the values of `src/utils/constants.ts` and the literals the
helpers inline. `Schema` holds the entity records.

The model follows the code where it departs from its evident intent:

- The protocol's `totalSupplyUsd` adds each market's supply twice.
- The hour bucket folds `usdcPerComp` twice per update.
- `updateMarket` divides `totalSupply` by the cToken decimals count itself, not
  by 10^decimals, and its exchange rate multiplies by that count.
- The incentive APY is -1, not 0, when its denominator is 0.
- Listing a market that is already listed is not filtered out. The market is
  rebuilt and its id is appended again.
- An accrual event from an address with no stored market still re-totals the
  protocol and adds a protocol-week sample.

## Model

| member | source | states |
|---|---|---|
| Utils.Pow10 | src/utils/utils.ts:12-18 | 10^d is at least 1, and it is 1 for every d <= 0 because the counting loop does not run |
| Utils.ExponentToBigDecimal | src/utils/utils.ts:12-18 | the loop multiplies 1 by ten `decimals` times and returns 10^decimals, or 1 when decimals <= 0 |
| Utils.Pow10NonPositive | src/utils/utils.ts:14 | a non-positive exponent gives 1 |
| Utils.TokenAmountToDecimal | src/utils/utils.ts:20-29 | with 0 decimals the amount is returned unscaled; in every case the result times 10^decimals gives back the raw amount |
| Utils.OneWholeToken | src/utils/utils.ts:26-28 | the raw amount 10^d converted at d decimals is exactly 1 |
| Utils.CalculateApy | src/utils/utils.ts:31-39 | the loop leaves (1 + rate * blocksPerDay)^daysPerYear - 1; after i steps the accumulator is base^i |
| Utils.ZeroRateZeroApy | src/utils/utils.ts:31-39 | a zero rate gives a zero APY |
| Utils.NonNegativeRateApy | src/utils/utils.ts:31-39 | with a non-negative rate and block count, the APY is non-negative |
| Utils.CalculateCompDistrubtionApy | src/utils/utils.ts:42-61 | the loop compounds the incentive base: 1 + usdcPerComp * compSpeed * blocksPerDay / denom, or 0 when denom = totalSupplyOrBorrow * usdcPerUnderlying is 0 |
| Utils.NoSpeedNoIncentive | src/utils/utils.ts:48-60 | with a non-zero denominator and zero comp speed, the incentive APY is 0 |
| Utils.ZeroDenominatorIncentive | src/utils/utils.ts:52-60 | with a zero denominator and at least one day per year, the incentive APY is -1 |
| Utils.MinBigDecimal | src/utils/utils.ts:63-69 | returns one of its arguments, no larger than either |
| Utils.MaxBigDecimal | src/utils/utils.ts:71-77 | returns one of its arguments, no smaller than either |
| Oracle.GetTokenPrice | src/mapping-helpers/oracle.ts:26-85 | 0 without a protocol. Above block 7715908: the protocol oracle's cToken price scaled by 10^(36 - underlyingDecimals), or 0 if the read reverts. At or below that block: oracle 1's price of the underlying scaled by 10^18 |
| Oracle.GetUsdcPriceEth | src/mapping-helpers/oracle.ts:88-121 | 0 without a protocol. Above block 7715908: the cUSDC price scaled by 10^30, or 0 on a revert. Otherwise: oracle 1's USDC price scaled by 10^18 |
| Oracle.GetEthInUsd | src/mapping-helpers/oracle.ts:124-152 | 0 without a protocol or before block 10678764. From that block on: the cETH price scaled by 10^18, or 0 on a revert |
| Oracle.GetCompInUsd | src/mapping-helpers/oracle.ts:154-157 | 1 for every block |
| Oracle.FirstEraIgnoresProtocolOracle | src/mapping-helpers/oracle.ts:77-83 | at or below the switch block, the token price does not depend on which oracle the protocol records |
| Oracle.ResolversReadOnlyTheOracle | src/mapping-helpers/oracle.ts:26-157 | two protocols with the same oracle address get the same prices from all three resolvers; nothing else of the protocol is read |
| MarketHelpers.CreateMarket | src/mapping-helpers/market.ts:32-103 | id is the address; creation block = latest block = the argument; cToken symbol and decimals come from the cToken. cETH gets Ether/ETH/zero address/18; a SAI underlying gets the fixed name and symbol; other underlyings get their ERC20 descriptors. Every listed dynamic field is 0, and the fields never assigned are unassigned |
| MarketHelpers.ContractReads | src/mapping-helpers/market.ts:189-249 | latest block is the accrual block. totalSupply times the decimals count is the raw supply. exchangeRate * 10^underlyingDecimals * 10^18 = raw rate * cTokenDecimals. Reserves, borrows and cash times 10^underlyingDecimals are the raw values. borrowRate * 10^18 = raw * 2102400. supplyRate is the same, or 0 on a revert |
| MarketHelpers.NewPrices | src/mapping-helpers/market.ts:127-186 | the price step: above block 10678764 None when the ETH price in USD is 0, else the USD-regime pair (ethPerUnderlying, usdcPerUnderlying); otherwise None when the USDC price in ETH is 0, else the ETH-regime pair. The regimes' contents are stated by UsdRegimePrices, EthRegimePrices and AbortsOnZeroReferencePrice |
| MarketHelpers.PricedMarket | src/mapping-helpers/market.ts:127-186 | the market with the two prices of NewPrices written, or None when the price step aborts |
| MarketHelpers.PriceMarket | src/mapping-helpers/market.ts:127-186 | the price step's field assignments produce the same prices as the state function NewPrices, or the early abort |
| MarketHelpers.ReadContractState | src/mapping-helpers/market.ts:189-249 | the contract step's field assignments equal the market with its ContractReads fields |
| MarketHelpers.WithContractState | src/mapping-helpers/market.ts:189-249 | the market with the eight fields of ContractReads written and nothing else changed |
| MarketHelpers.RefreshMarket | src/mapping-helpers/market.ts:125-250 | the market `updateMarket` saves: the price step, then the contract step, or None when the price step aborts; RefreshKeepsDescriptors and RefreshIdempotent state its properties |
| MarketHelpers.UpdateMarketState | src/mapping-helpers/market.ts:110-251 | the store after `updateMarket`: unchanged for a missing market, one refreshed at this block, or an aborted price step; otherwise the market's record replaced by RefreshMarket. UpdateMarketGate, UpdateMarketFrame and UpdateMarketIdempotent state its properties |
| MarketHelpers.UpdateMarket | src/mapping-helpers/market.ts:110-251 | the store after the update is UpdateMarketState of the store before it |
| MarketHelpers.UpdateMarketGate | src/mapping-helpers/market.ts:116-122 | a missing market, or one whose latest block equals the argument, leaves the store unchanged |
| MarketHelpers.AbortsOnZeroReferencePrice | src/mapping-helpers/market.ts:127-163 | the refresh aborts exactly when the regime's reference price is 0: the ETH price in USD above block 10678764, otherwise the USDC price in ETH |
| MarketHelpers.NoProtocolNoUpdate | src/mapping-helpers/market.ts:127-163 | without a protocol the reference price is 0, so nothing is saved |
| MarketHelpers.UsdRegimePrices | src/mapping-helpers/market.ts:134-155 | USD regime. cETH changes only usdcPerUnderlying, to the ETH price. Other markets get ethPerUnderlying * ethUSD = tokenUSD. usdcPerUnderlying becomes tokenUSD, except that cUSDC keeps its own |
| MarketHelpers.EthRegimePrices | src/mapping-helpers/market.ts:164-185 | ETH regime. cETH changes only usdcPerUnderlying, to ethPerUnderlying / usdcInEth. Other markets get ethPerUnderlying = tokenEth. usdcPerUnderlying * usdcInEth = tokenEth, except that cUSDC keeps its own |
| MarketHelpers.RefreshKeepsDescriptors | src/mapping-helpers/market.ts:110-251 | the update never changes id, creation block, symbols, names, addresses or decimals |
| MarketHelpers.PricedFixpoint | src/mapping-helpers/market.ts:127-186 | pricing an already priced market with the same reads changes nothing |
| MarketHelpers.NewPricesIgnoreContractFields | src/mapping-helpers/market.ts:127-186 | the price step does not read the fields the contract step writes |
| MarketHelpers.ContractReadsIgnorePrices | src/mapping-helpers/market.ts:189-249 | the contract step does not read the fields the price step writes |
| MarketHelpers.PricingCommutesWithContractState | src/mapping-helpers/market.ts:127-249 | the two steps commute |
| MarketHelpers.ContractStateIdempotent | src/mapping-helpers/market.ts:189-249 | the contract step applied twice is applied once |
| MarketHelpers.RefreshIdempotent | src/mapping-helpers/market.ts:127-249 | refreshing a refreshed market with the same pinned reads returns it unchanged: fields are re-derived, never accumulated |
| MarketHelpers.UpdateMarketIdempotent | src/mapping-helpers/market.ts:110-251 | a second update at the same block leaves the store as the first left it |
| MarketHelpers.UpdateMarketFrame | src/mapping-helpers/market.ts:110-251 | only the one market's record is written, no market is added or removed, and its descriptors are kept |
| MarketHelpers.UpdateMarketPreservesValid | src/mapping-helpers/market.ts:110-251 | the update keeps the store invariant |
| LegacyMarket.CreateMarket | src/market.ts:22-72 | same blocks, cToken descriptors and cETH case as the current revision. Any other underlying's name and symbol always come from its ERC20, with no SAI override. The listed dynamics are zero |
| LegacyMarket.CreateMarketAgreesOutsideSai | src/market.ts:35-51 | both revisions build the same market unless the underlying is SAI |
| LegacyMarket.CreateMarketSaiDifference | src/market.ts:35-51 | for a SAI underlying the revisions differ only in the underlying name and symbol |
| LegacyMarket.RefreshMarket | src/market.ts:141-145 | latest block becomes the accrual block; totalSupply times the decimals count is the raw supply; every other field is unchanged |
| LegacyMarket.UpdateMarketState | src/market.ts:80-212 | the store after the legacy `updateMarket`: the market's record replaced by RefreshMarket when it exists and its latest block differs, otherwise unchanged |
| LegacyMarket.UpdateMarket | src/market.ts:80-212 | the store after the update is UpdateMarketState of the store before it |
| LegacyMarket.UpdateMarketGate | src/market.ts:81-84 | the store changes only if the market exists and its latest block differs from the argument |
| LegacyMarket.UpdateMarketFrame | src/market.ts:80-212 | only the one market is written, and in it only latestBlockNumber and totalSupply |
| LegacyMarket.UpdateMarketIdempotent | src/market.ts:80-212 | a second update with the same reads changes nothing more |
| LegacyMarket.UpdateMarketPreservesValid | src/market.ts:80-212 | the update keeps the store invariant |
| ProtocolHelpers.CreateProtocol | src/mapping-helpers/protocol.ts:13-30 | id "1", the given oracle, both block fields at the argument, no markets, zero totals and utilization |
| ProtocolHelpers.UsdTotal | src/mapping-helpers/protocol.ts:56-82 | the sum, over the listed ids in order, of a market amount times usdcPerUnderlying, skipping ids with no stored market; UsdTotalAppend, AbsentIdsSkipped and DuplicateListingCountsTwice state its properties |
| ProtocolHelpers.Summarize | src/mapping-helpers/protocol.ts:47-93 | latest block is the argument. totalSupplyUsd is twice the sum over stored listed markets of supply * usdcPerUnderlying. Borrow and reserves are the plain sums. Utilization is 0 when supply is 0, otherwise utilization * supply = borrow. Id, oracle, oracle block and market list are kept |
| ProtocolHelpers.UpdateProtocolSummaryState | src/mapping-helpers/protocol.ts:36-94 | only the protocol changes; an absent protocol changes nothing |
| ProtocolHelpers.UpdateProtocolSummaryData | src/mapping-helpers/protocol.ts:36-94 | the loop's running totals, supply added twice per market, equal the sums UsdTotal over the prefix of ids already seen |
| ProtocolHelpers.UsdTotalAppend | src/mapping-helpers/protocol.ts:56-82 | the total over two concatenated id lists is the sum of their totals |
| ProtocolHelpers.AbsentIdsSkipped | src/mapping-helpers/protocol.ts:58-61 | ids that name no stored market add nothing |
| ProtocolHelpers.UsdTotalIgnoresUnlisted | src/mapping-helpers/protocol.ts:56-82 | storing a market under an id outside the list leaves every total unchanged |
| ProtocolHelpers.ZeroPricedListingAddsNothing | src/mapping-helpers/protocol.ts:56-82 | appending a market whose usdcPerUnderlying is 0 does not move a total |
| ProtocolHelpers.DuplicateListingCountsTwice | src/mapping-helpers/protocol.ts:56-82 | an id listed twice is counted twice |
| ProtocolHelpers.BorrowsWithinSupply | src/mapping-helpers/protocol.ts:56-82 | with non-negative prices and 0 <= borrow <= supply in every market, 0 <= total borrow <= total supply |
| ProtocolHelpers.UtilizationAtMostHalf | src/mapping-helpers/protocol.ts:63-86 | because supply is counted twice, utilization stays within [0, 1/2] under those conditions |
| ProtocolHelpers.UpdateProtocolSummaryIdempotent | src/mapping-helpers/protocol.ts:36-94 | a second summary at the same block changes nothing |
| ProtocolHelpers.UpdateProtocolSummaryPreservesValid | src/mapping-helpers/protocol.ts:36-94 | the summary keeps the store invariant |
| UserHelpers.NewUser | src/mapping-helpers/user.ts:6-9 | the id is the address; creation block = last block = the argument |
| UserHelpers.CreateUserState | src/mapping-helpers/user.ts:5-13 | the store with NewUser saved under the address, replacing any user there; CreateUserFrame states what else is kept |
| UserHelpers.CreateUser | src/mapping-helpers/user.ts:5-13 | the returned user is NewUser and is the one now stored under the address |
| UserHelpers.CreateUserFrame | src/mapping-helpers/user.ts:5-13 | only the users map changes; the key set gains the address; every other user is kept |
| UserHelpers.CreateUserPreservesValid | src/mapping-helpers/user.ts:5-13 | creating a user keeps the store invariant |
| UserMarketHelpers.NewUserMarket | src/mapping-helpers/userMarket.ts:9-30 | id is user id ++ market id; both block fields at the argument; not entered; supply, borrow and balance 0 |
| UserMarketHelpers.CreateUserMarketState | src/mapping-helpers/userMarket.ts:9-30 | the store with NewUserMarket saved under user id ++ market id |
| UserMarketHelpers.CreateUserMarket | src/mapping-helpers/userMarket.ts:9-30 | the returned position is NewUserMarket and is saved under its id |
| UserMarketHelpers.RefreshBalances | src/mapping-helpers/userMarket.ts:59-87 | latest block is the argument. If balanceOf succeeds, cTokenBalance * 10^cTokenDecimals = balance and totalSupply = cTokenBalance * underlyingPerCToken; on a revert both are kept. If borrowBalanceCurrent succeeds, totalBorrow * 10^underlyingDecimals = borrow; on a revert it is kept. Nothing else changes |
| UserMarketHelpers.ReadBalances | src/mapping-helpers/userMarket.ts:59-87 | the conditional field assignments equal RefreshBalances |
| UserMarketHelpers.EnsureUser | src/mapping-helpers/userMarket.ts:50-53 | afterwards the user exists; only the users map can change |
| UserMarketHelpers.EnsureUserMarket | src/mapping-helpers/userMarket.ts:55-57 | afterwards the position exists; only the positions map can change |
| UserMarketHelpers.UpdateUserMarketBalanceState | src/mapping-helpers/userMarket.ts:32-90 | markets and protocol are never changed |
| UserMarketHelpers.UpdateUserMarketBalance | src/mapping-helpers/userMarket.ts:32-90 | the store after the call is UpdateUserMarketBalanceState of the store before it |
| UserMarketHelpers.AbsentMarketNoChange | src/mapping-helpers/userMarket.ts:45-48 | without the market nothing is created or changed |
| UserMarketHelpers.UpdateUserMarketBalanceFrame | src/mapping-helpers/userMarket.ts:50-53 | only users and positions change; the user is created only when absent |
| UserMarketHelpers.UpdateUserMarketBalanceKeys | src/mapping-helpers/userMarket.ts:55-89 | only the position user ++ market is written; every other position is kept |
| UserMarketHelpers.UpdateUserMarketBalanceRow | src/mapping-helpers/userMarket.ts:55-89 | the written row has the new latest block. An existing row keeps id, creation block and entered flag. A new row is NewUserMarket apart from the balances read |
| UserMarketHelpers.RefreshBalancesIdempotent | src/mapping-helpers/userMarket.ts:59-87 | balances are overwritten from reads, so refreshing twice is refreshing once |
| UserMarketHelpers.UpdateUserMarketBalanceIdempotent | src/mapping-helpers/userMarket.ts:32-90 | a second call with the same reads and block leaves the store unchanged |
| UserMarketHelpers.UpdateUserMarketBalancePreservesValid | src/mapping-helpers/userMarket.ts:32-90 | the update keeps the store invariant |
| HistoricalData.NatToString | src/mapping-helpers/historical-data.ts:35 | the decimal form of the period id is non-empty and all digits |
| HistoricalData.NatToStringInjective | src/mapping-helpers/historical-data.ts:35 | distinct period ids have distinct decimal forms |
| HistoricalData.BucketKey | src/mapping-helpers/historical-data.ts:35 | the period id in decimal, a dash, then the suffix; BucketKeyInjective states that it does not collide |
| HistoricalData.MarketBucketKey | src/mapping-helpers/historical-data.ts:31-35 | the market's bucket key: the id of the period holding the timestamp, then the cToken symbol |
| HistoricalData.BucketKeyInjective | src/mapping-helpers/historical-data.ts:31-35 | a key id ++ "-" ++ suffix determines both the id and the suffix |
| HistoricalData.PeriodStart | src/mapping-helpers/historical-data.ts:31-33 | the bucket date id * width satisfies date <= ts < date + width |
| HistoricalData.RunningMean | src/mapping-helpers/historical-data.ts:58-65 | the one-column fold prev * n/(n+1) + v * 1/(n+1); RunningMeanStep and FirstFoldTakesReading state what it computes |
| HistoricalData.FirstFoldTakesReading | src/mapping-helpers/historical-data.ts:58-65 | at count 0 the old value has weight 0, so the fold gives the reading |
| HistoricalData.RunningMeanStep | src/mapping-helpers/historical-data.ts:58-65 | the fold prev * n/(n+1) + v * 1/(n+1), multiplied by n+1, gives prev * n + v |
| HistoricalData.FoldAll | src/mapping-helpers/historical-data.ts:58-111 | a run of folds of one column, the count going up by one per value; FoldAllIsMean and FreshBucketHoldsMean state that it is the running mean |
| HistoricalData.FoldAllIsMean | src/mapping-helpers/historical-data.ts:58-111 | after folding vs into a field that held acc at count n: field * (n + |vs|) = acc * n + sum(vs) |
| HistoricalData.FreshBucketHoldsMean | src/mapping-helpers/historical-data.ts:37-111 | from count 0, folding v1..vk leaves (v1 + ... + vk) / k, whatever the field held before |
| HistoricalData.MeanExample | src/mapping-helpers/historical-data.ts:62-111 | folding 10, 20, 30 gives 10, 15, 20 |
| HistoricalData.DoubleFoldClosedForm | src/mapping-helpers/historical-data.ts:103-109 | the doubled usdcPerComp fold gives (prev * n^2 + v * (2n+1)) / (n+1)^2, not the mean |
| HistoricalData.DoubleFoldExample | src/mapping-helpers/historical-data.ts:103-109 | hourly usdcPerComp readings of 10 then 20 leave 17.5, where the mean is 15 |
| HistoricalData.FreshMarketBucket | src/mapping-helpers/historical-data.ts:37-56 | a new bucket has the key, market and period start, count 0, every column 0 except usdcPerComp, which is unassigned |
| HistoricalData.FoldMarket | src/mapping-helpers/historical-data.ts:58-111 | key, market and date kept; count + 1; every column one running-mean step towards the market's value; usdcPerComp two steps with the same weights in the hour table |
| HistoricalData.FoldMarketsFollowsFoldAll | src/mapping-helpers/historical-data.ts:58-111 | k updates of one bucket keep its key, market and date, add k to its count, and leave each column (the hourly usdcPerComp aside) at FoldAll of its start value and the k readings |
| HistoricalData.FreshBucketColumnIsMean | src/mapping-helpers/historical-data.ts:37-111 | a new market bucket after k updates counts k and holds in each column the mean of the k readings; in the day and week tables usdcPerComp too |
| HistoricalData.FoldSnapshot | src/mapping-helpers/historical-data.ts:58-111 | the column assignments, with the weights computed once, equal FoldMarket |
| HistoricalData.UpdateMarketBucketState | src/mapping-helpers/historical-data.ts:22-295 | the store after one market bucket update: unchanged without the market, otherwise the bucket under MarketBucketKey in the period's table, loaded or created, replaced by FoldMarket. AbsentMarketNoBucket, UpdateMarketBucketFrame and FreshBucketColumnIsMean state its properties |
| HistoricalData.UpdateMarketHourData | src/mapping-helpers/historical-data.ts:22-114 | the store after the call is UpdateMarketBucketState for the hour table |
| HistoricalData.UpdateMarketDayData | src/mapping-helpers/historical-data.ts:117-205 | the store after the call is UpdateMarketBucketState for the day table, usdcPerComp folded once |
| HistoricalData.UpdateMarketWeekData | src/mapping-helpers/historical-data.ts:207-295 | the store after the call is UpdateMarketBucketState for the week table, usdcPerComp folded once |
| HistoricalData.AbsentMarketNoBucket | src/mapping-helpers/historical-data.ts:26-29 | without the market nothing is written |
| HistoricalData.UpdateMarketBucketFrame | src/mapping-helpers/historical-data.ts:31-113 | only the bucket keyed by period id ++ "-" ++ cToken symbol in one table is written. An existing bucket keeps date and market and counts one more. A new one is dated at the period start, counts 1 and holds the market's value in every column, usdcPerComp included |
| HistoricalData.UpdateMarketBucketPreservesValid | src/mapping-helpers/historical-data.ts:22-295 | each bucket update keeps the store invariant |
| HistoricalData.FoldProtocol | src/mapping-helpers/historical-data.ts:328-349 | key and date kept; count + 1; the four USD and utilization columns each take one running-mean step |
| HistoricalData.FoldProtocolsFollowsFoldAll | src/mapping-helpers/historical-data.ts:328-349 | k updates of the protocol week bucket keep its key and date, add k to its count, and leave each column at FoldAll of its start value and the k readings |
| HistoricalData.FreshProtocolBucketColumnIsMean | src/mapping-helpers/historical-data.ts:314-349 | a new protocol week bucket after k updates counts k and holds in each column the mean of the k readings |
| HistoricalData.UpdateProtocolWeekState | src/mapping-helpers/historical-data.ts:297-352 | the store after the protocol-week update: unchanged without a protocol, otherwise the bucket under week id ++ "-" ++ protocol id, loaded or created, replaced by FoldProtocol; UpdateProtocolWeekFrame and FreshProtocolBucketColumnIsMean state its properties |
| HistoricalData.UpdateProtocolWeekData | src/mapping-helpers/historical-data.ts:297-352 | the store after the call is UpdateProtocolWeekState |
| HistoricalData.UpdateProtocolWeekFrame | src/mapping-helpers/historical-data.ts:300-351 | without a protocol nothing is written. Otherwise only the bucket week id ++ "-" ++ protocol id changes, and its count goes up by one from 0 or from the stored count. A new bucket holds the protocol's values |
| HistoricalData.UpdateProtocolWeekPreservesValid | src/mapping-helpers/historical-data.ts:297-352 | the protocol-week update keeps the store invariant |
| Comptroller.ListingOracleMalformedAfterSwitch | src/mapping/comptroller.ts:29-32 | up to block 7715908 the listing oracle is a well-formed address (0x and forty hex digits); after it the string is not one: it is a well-formed address followed by a space |
| Comptroller.LoadOrCreateProtocol | src/mapping/comptroller.ts:27-38 | the stored protocol, or CreateProtocol with the given oracle at the block when there is none |
| Comptroller.ListingOracle | src/mapping/comptroller.ts:29-32 | the oracle 1 address up to block 7715908, the hard-coded oracle 2 string after it |
| Comptroller.MarketListedState | src/mapping/comptroller.ts:18-49 | the store after `handleMarketListed`: CreateMarket saved under the cToken's id, and the loaded or created protocol with that id appended to its list; MarketListedFrame, MarketListedCreatesProtocol and RelistingResetsMarket state its properties |
| Comptroller.HandleMarketListed | src/mapping/comptroller.ts:18-49 | the store after the handler is MarketListedState of the store before it |
| Comptroller.MarketListedFrame | src/mapping/comptroller.ts:40-48 | only markets and protocol change. The list is the old list with the new id appended. The market map gains the freshly created market. An existing protocol keeps all but its list |
| Comptroller.MarketListedCreatesProtocol | src/mapping/comptroller.ts:27-38 | a missing protocol is created with id "1", the era's oracle, both block fields at the event block, zero totals, and only the new market listed |
| Comptroller.RelistingResetsMarket | src/mapping/comptroller.ts:40-45 | listing an already listed market resets its dynamics and creation block, and its id then occurs once more in the list |
| Comptroller.MarketListedPreservesValid | src/mapping/comptroller.ts:18-49 | listing a cToken with non-zero decimals keeps the store invariant |
| Comptroller.NewPriceOracleState | src/mapping/comptroller.ts:51-63 | the store after `handleNewPriceOracle`: the loaded or created protocol with the new oracle and the event block as its oracle block; NewPriceOracleFrame and NewPriceOracleIdempotent state its properties |
| Comptroller.HandleNewPriceOracle | src/mapping/comptroller.ts:51-63 | the store after the handler is NewPriceOracleState of the store before it |
| Comptroller.NewPriceOracleFrame | src/mapping/comptroller.ts:56-62 | only the protocol changes. It exists afterwards with the new oracle and the event block. An existing protocol keeps its list and totals; a created one lists nothing |
| Comptroller.NewPriceOracleIdempotent | src/mapping/comptroller.ts:51-63 | the same announcement twice is the same as once |
| Comptroller.NewPriceOraclePreservesValid | src/mapping/comptroller.ts:51-63 | the handler keeps the store invariant |
| CTokenHandlers.DecimalsUsable | src/mapping-helpers/market.ts:190-193 | the event's market, when stored, has a non-zero cToken decimals count, so the divisions by it are defined |
| CTokenHandlers.RefreshState | src/mapping/ctoken.ts:57-64 | market update, protocol summary, hour, day and week market buckets, then the protocol week, composed in the source's order; RefreshFrame, RefreshUnknownMarket and RefreshPreservesValid state its properties |
| CTokenHandlers.Refresh | src/mapping/ctoken.ts:57-64 | market update, protocol summary, hour, day and week buckets, then the protocol week, in that order (RefreshState) |
| CTokenHandlers.HandleAccrueInterestOld | src/mapping/ctoken.ts:56-65 | the store after the handler is RefreshState |
| CTokenHandlers.HandleAccrueInterest | src/mapping/ctoken.ts:70-79 | the store after the handler is RefreshState |
| CTokenHandlers.RefreshUnknownMarket | src/mapping/ctoken.ts:57-64 | for an address with no stored market only the protocol summary and the protocol-week bucket run |
| CTokenHandlers.RefreshFrame | src/mapping/ctoken.ts:57-64 | the refresh leaves users, positions and event records alone and adds or removes no market |
| CTokenHandlers.RefreshPreservesValid | src/mapping/ctoken.ts:57-64 | the refresh keeps the store invariant |
| CTokenHandlers.PositionId | src/mapping/ctoken.ts:102-103 | a position's id: the user's address followed by the market's |
| CTokenHandlers.MintRecord | src/mapping/ctoken.ts:106-119 | keyed by the tx hash, at the event's block and time, naming minter ++ market; amount * 10^underlyingDecimals and tokens * 10^cTokenDecimals give the raw amounts back |
| CTokenHandlers.MintState | src/mapping/ctoken.ts:86-120 | unchanged for an unknown market; otherwise the minter's balance update, then MintRecord saved under the tx hash; MintFrame and MintPreservesValid state its properties |
| CTokenHandlers.HandleMint | src/mapping/ctoken.ts:86-120 | the store after the handler is MintState of the store before it |
| CTokenHandlers.RedeemRecord | src/mapping/ctoken.ts:146-159 | keyed by the tx hash, naming redeemer ++ market; both amounts round-trip at their decimals |
| CTokenHandlers.RedeemState | src/mapping/ctoken.ts:126-160 | unchanged for an unknown market; otherwise the redeemer's balance update, then RedeemRecord saved under the tx hash |
| CTokenHandlers.HandleRedeem | src/mapping/ctoken.ts:126-160 | the store after the handler is RedeemState |
| CTokenHandlers.BorrowRecord | src/mapping/ctoken.ts:185-194 | keyed by the tx hash, naming borrower ++ market; the amount round-trips at the underlying decimals |
| CTokenHandlers.BorrowState | src/mapping/ctoken.ts:165-195 | unchanged for an unknown market; otherwise the borrower's balance update, then BorrowRecord saved under the tx hash |
| CTokenHandlers.HandleBorrow | src/mapping/ctoken.ts:165-195 | the store after the handler is BorrowState |
| CTokenHandlers.RepayBorrowRecord | src/mapping/ctoken.ts:220-229 | keyed by the tx hash, naming borrower ++ market; the amount round-trips at the underlying decimals |
| CTokenHandlers.RepayBorrowState | src/mapping/ctoken.ts:200-230 | unchanged for an unknown market; otherwise the borrower's balance update, then RepayBorrowRecord saved under the tx hash |
| CTokenHandlers.HandleRepayBorrow | src/mapping/ctoken.ts:200-230 | the store after the handler is RepayBorrowState |
| CTokenHandlers.LiquidationRecord | src/mapping/ctoken.ts:272-295 | keyed by the tx hash; it names the borrower's position in both markets and the liquidator's in the seized market. Repay round-trips at the liquidated market's underlying decimals, seize at the seized market's cToken decimals |
| CTokenHandlers.LiquidationPositionsState | src/mapping/ctoken.ts:262-270 | the three balance refreshes never change a market |
| CTokenHandlers.LiquidateBorrowState | src/mapping/ctoken.ts:239-296 | unchanged unless both the liquidated and the seized market are stored; otherwise the three position refreshes, then LiquidationRecord saved under the tx hash; LiquidationTouchesThreePositions states which positions change |
| CTokenHandlers.HandleLiquidateBorrow | src/mapping/ctoken.ts:239-296 | the store after the handler is LiquidateBorrowState: nothing unless both markets are stored |
| CTokenHandlers.TransferRecord | src/mapping/ctoken.ts:337-347 | keyed by the tx hash, naming from ++ market and to ++ market; the amount round-trips at the cToken decimals |
| CTokenHandlers.TransferRecordState | src/mapping/ctoken.ts:328-347 | the position refreshes and the record never change a market |
| CTokenHandlers.TransferState | src/mapping/ctoken.ts:308-358 | unchanged for a transfer from or to the market itself or for an unknown market; otherwise both positions refreshed and TransferRecord saved, then RefreshState; TransfersWithTheMarketIgnored and TransferPositions state its properties |
| CTokenHandlers.HandleTransfer | src/mapping/ctoken.ts:308-358 | the store after the handler is TransferState |
| CTokenHandlers.UnknownMarketEventsIgnored | src/mapping/ctoken.ts:93-97 | mint, redeem, borrow, repay, liquidation and transfer events of an address with no stored market change nothing |
| CTokenHandlers.TransfersWithTheMarketIgnored | src/mapping/ctoken.ts:315-317 | a transfer from or to the market's own address changes nothing |
| CTokenHandlers.MintFrame | src/mapping/ctoken.ts:100-119 | a mint writes only the minter's user and position and the record under the tx hash, replacing any record already there; every other position is kept |
| CTokenHandlers.LiquidationTouchesThreePositions | src/mapping/ctoken.ts:262-270 | exactly the keys (borrower, liquidated market), (borrower, seized market) and (liquidator, seized market) are added or rewritten; every other position is kept |
| CTokenHandlers.TransferPositions | src/mapping/ctoken.ts:328-347 | both sides get a position, and the record names them |
| CTokenHandlers.MintPreservesValid | src/mapping/ctoken.ts:86-120 | the handler keeps the store invariant |
| CTokenHandlers.RedeemPreservesValid | src/mapping/ctoken.ts:126-160 | the handler keeps the store invariant |
| CTokenHandlers.BorrowPreservesValid | src/mapping/ctoken.ts:165-195 | the handler keeps the store invariant |
| CTokenHandlers.RepayBorrowPreservesValid | src/mapping/ctoken.ts:200-230 | the handler keeps the store invariant |
| CTokenHandlers.LiquidateBorrowPreservesValid | src/mapping/ctoken.ts:239-296 | the handler keeps the store invariant |
| CTokenHandlers.TransferPreservesValid | src/mapping/ctoken.ts:308-358 | the handler keeps the store invariant |

## Left out

- Contract bindings (`CToken.bind`, `ERC20.bind`, the oracle binds) are foreign calls. Each read is a function of (address, [argument,] block) in `Contracts.Chain`. The reads without a `try_` prefix never revert in this model.
- The graph-ts store's load/save mechanics are reduced to map lookups and updates. `toHexString` ids are opaque strings, and `Address` and its hex form are the same string.
- Event objects become an `EventMeta` (address, block number, timestamp, tx hash) plus the event's parameters as arguments.
- `CTokenTemplate.create` (src/mapping/comptroller.ts:23) registers a data source and changes no entity, so it is not modelled.
- `log.info` and `log.warning` calls are output only. Where one precedes an early return, the model just returns.
- BigDecimal is modelled as exact reals: finite-precision division rounding is not modelled, and `.truncate(n)` (src/mapping-helpers/market.ts:137-139, 211) is the identity.
- `BLOCKS_PER_DAY` and `DAYS_PER_YEAR` are parameters of the APY functions, because the constants file they are imported from does not define them. `DAYS_PER_YEAR` is a `nat`.
- `calculateApy`, `calculateCompDistrubtionApy`, `minBigDecimal` and `maxBigDecimal` are modelled on their own; none of the handlers here calls them.
- Every BigInt is an unbounded integer; no width or overflow is modelled.
- Fields a constructor never assigns hold `StoreState.unassigned`, one arbitrary real fixed per store. These are `ethPerUnderlying`, `usdcPerEth`, `usdcPerComp` and `underlyingPerCToken` in a new market, and `usdcPerComp` in a new market bucket. Because one value stands for all of them, the model makes these unassigned fields equal to one another, for instance a new bucket's `usdcPerComp` and a new market's `ethPerUnderlying`. The source promises no such equality, and no contract here relies on it.
- The oracle addresses are opaque string constants. The one exception is the listing handler's oracle 2 string; see the Comptroller.MarketListedState line below.
- Comptroller.MarketListedState: when no protocol is stored and the block is after 7715908, the source passes `"0x6d2299c48a8dd07a872fdd0f8233924872ad1071 "` to `Address.fromString` (src/mapping/comptroller.ts:29-37). That string is a well-formed address followed by a space, as `Comptroller.ListingOracleMalformedAfterSwitch` proves. graph-node rejects it, so the handler fails before `createMarket` runs and indexing stops. The model has no failed state: it saves the market and a protocol whose `priceOracle` is that string. The source marks this protocol-creation branch as a testing aid (src/mapping/comptroller.ts:25-26). A listing with a protocol already stored, or at or before block 7715908, is modelled exactly.
- Comptroller.HandleMarketListed: is proved equal to MarketListedState, so it shares that line's difference from the source.
- Comptroller.MarketListedCreatesProtocol: for blocks after 7715908 it describes the protocol the model creates. The source fails instead, as described above.
- `getUSDCpriceETH` binds oracle 1 through the literal `02557a5e05defeffd4cae6d83ea3d173b272c904`, with no `0x` prefix (src/mapping-helpers/oracle.ts:96-98). The model reads oracle 1 at `PRICE_ORACLE_1_ADDRESS`, which has the prefix. That is the same contract only because `Address.fromString` accepts the hex with or without the prefix. The model does not capture that parsing.
- MarketHelpers.UpdateMarketState: requires a non-zero `cTokenDecimals` on the stored market. The source then divides by zero, and what BigDecimal does then is not modelled. The store invariant guarantees the requirement for every stored market.
- CTokenHandlers.Refresh: requires the same thing through `DecimalsUsable`, as do the accrual and transfer handlers.
- Comptroller.MarketListedPreservesValid: requires a non-zero decimals read for the new cToken, since the invariant keeps that for every stored market.
- HistoricalData.PeriodStart: states the bucket date by its bounds only. That it is a multiple of the width follows from its definition but is not part of the contract.
- Utils.MinBigDecimal: on a tie both arguments are equal, so "returns b" adds nothing to "returns one of them".
- Handlers for events other than those listed (approval, reserve factor, comptroller parameter changes) are not in this model.
