/**
 * The cToken event handlers (src/mapping/ctoken.ts). Interest accrual and
 * wallet-to-wallet transfers refresh the market, the protocol summary and the
 * history buckets; mint, redeem, borrow, repay and liquidation refresh the
 * positions involved and log a record keyed by the transaction hash.
 */
module CTokenHandlers {
  import opened Wrappers
  import opened Contracts
  import opened Schema
  import opened Utils
  import opened EntityStore
  import MarketHelpers
  import ProtocolHelpers
  import HistoricalData
  import UserMarketHelpers

  /** What every handler reads from the event besides its parameters. */
  datatype EventMeta = EventMeta(address: Address, blockNumber: Block, timestamp: nat, txHash: string)

  /** The decimals count `updateMarket` divides by is non-zero for the emitting market. */
  predicate DecimalsUsable(s: StoreState, marketAddress: Address)
  {
    marketAddress in s.markets ==> s.markets[marketAddress].cTokenDecimals != 0
  }

  // Market, protocol and history refresh

  /**
   * `updateMarket`, `updateProtocolSummaryData`, then the hour, day, week and
   * protocol-week updates, in this order, for the emitting market.
   */
  function RefreshState(s: StoreState, e: EventMeta, chain: Chain): StoreState
    requires DecimalsUsable(s, e.address)
  {
    var s1 := MarketHelpers.UpdateMarketState(s, e.address, e.blockNumber, chain);
    var s2 := ProtocolHelpers.UpdateProtocolSummaryState(s1, e.blockNumber);
    var s3 := HistoricalData.UpdateMarketBucketState(s2, HistoricalData.Hour, e.address, e.timestamp);
    var s4 := HistoricalData.UpdateMarketBucketState(s3, HistoricalData.Day, e.address, e.timestamp);
    var s5 := HistoricalData.UpdateMarketBucketState(s4, HistoricalData.Week, e.address, e.timestamp);
    HistoricalData.UpdateProtocolWeekState(s5, e.timestamp)
  }

  method Refresh(st: Store, e: EventMeta, chain: Chain)
    requires DecimalsUsable(st.Snapshot(), e.address)
    modifies st`markets, st`protocol, st`hourData, st`dayData, st`weekData, st`protocolWeekData
    ensures st.Snapshot() == RefreshState(old(st.Snapshot()), e, chain)
  {
    MarketHelpers.UpdateMarket(st, e.address, e.blockNumber, chain);
    ProtocolHelpers.UpdateProtocolSummaryData(st, e.blockNumber);
    HistoricalData.UpdateMarketHourData(st, e.address, e.timestamp);
    HistoricalData.UpdateMarketDayData(st, e.address, e.timestamp);
    HistoricalData.UpdateMarketWeekData(st, e.address, e.timestamp);
    HistoricalData.UpdateProtocolWeekData(st, e.timestamp);
  }

  /** `handleAccrueInterestOld`, for the cTokens deployed with the first AccrueInterest signature. */
  method HandleAccrueInterestOld(st: Store, e: EventMeta, chain: Chain)
    requires DecimalsUsable(st.Snapshot(), e.address)
    modifies st`markets, st`protocol, st`hourData, st`dayData, st`weekData, st`protocolWeekData
    ensures st.Snapshot() == RefreshState(old(st.Snapshot()), e, chain)
  {
    Refresh(st, e, chain);
  }

  /** `handleAccrueInterest`. */
  method HandleAccrueInterest(st: Store, e: EventMeta, chain: Chain)
    requires DecimalsUsable(st.Snapshot(), e.address)
    modifies st`markets, st`protocol, st`hourData, st`dayData, st`weekData, st`protocolWeekData
    ensures st.Snapshot() == RefreshState(old(st.Snapshot()), e, chain)
  {
    Refresh(st, e, chain);
  }

  /**
   * An accrual from an address that is not a stored market still re-totals the
   * protocol and adds a sample to its week bucket; the market and its buckets
   * are not touched.
   */
  lemma RefreshUnknownMarket(s: StoreState, e: EventMeta, chain: Chain)
    requires e.address !in s.markets
    ensures RefreshState(s, e, chain)
         == HistoricalData.UpdateProtocolWeekState(ProtocolHelpers.UpdateProtocolSummaryState(s, e.blockNumber),
                                                   e.timestamp)
  {
    var s2 := ProtocolHelpers.UpdateProtocolSummaryState(s, e.blockNumber);
    assert s2.markets == s.markets;
    HistoricalData.AbsentMarketNoBucket(s2, HistoricalData.Hour, e.address, e.timestamp);
    HistoricalData.AbsentMarketNoBucket(s2, HistoricalData.Day, e.address, e.timestamp);
    HistoricalData.AbsentMarketNoBucket(s2, HistoricalData.Week, e.address, e.timestamp);
  }

  /** Users, positions and event records equal, and no market added or removed. */
  predicate SamePositionsAndRecords(s: StoreState, r: StoreState)
  {
    && r.unassigned == s.unassigned
    && r.markets.Keys == s.markets.Keys
    && r.users == s.users && r.userMarkets == s.userMarkets
    && r.mints == s.mints && r.redeems == s.redeems && r.borrows == s.borrows
    && r.repayBorrows == s.repayBorrows && r.transfers == s.transfers && r.liquidations == s.liquidations
  }

  /** The refresh writes the market, the protocol and the history tables, and nothing else. */
  lemma RefreshFrame(s: StoreState, e: EventMeta, chain: Chain)
    requires DecimalsUsable(s, e.address)
    ensures SamePositionsAndRecords(s, RefreshState(s, e, chain))
  {
    var s1 := MarketHelpers.UpdateMarketState(s, e.address, e.blockNumber, chain);
    MarketUpdateFrame(s, e, chain);
    var s2 := ProtocolHelpers.UpdateProtocolSummaryState(s1, e.blockNumber);
    SummaryFrame(s1, e.blockNumber);
    var s3 := HistoricalData.UpdateMarketBucketState(s2, HistoricalData.Hour, e.address, e.timestamp);
    BucketUpdateFrame(s2, HistoricalData.Hour, e.address, e.timestamp);
    var s4 := HistoricalData.UpdateMarketBucketState(s3, HistoricalData.Day, e.address, e.timestamp);
    BucketUpdateFrame(s3, HistoricalData.Day, e.address, e.timestamp);
    var s5 := HistoricalData.UpdateMarketBucketState(s4, HistoricalData.Week, e.address, e.timestamp);
    BucketUpdateFrame(s4, HistoricalData.Week, e.address, e.timestamp);
    var r := HistoricalData.UpdateProtocolWeekState(s5, e.timestamp);
    ProtocolWeekFrame(s5, e.timestamp);
    assert r == RefreshState(s, e, chain);
  }

  lemma MarketUpdateFrame(s: StoreState, e: EventMeta, chain: Chain)
    requires DecimalsUsable(s, e.address)
    ensures SamePositionsAndRecords(s, MarketHelpers.UpdateMarketState(s, e.address, e.blockNumber, chain))
  {
    MarketHelpers.UpdateMarketFrame(s, e.address, e.blockNumber, chain);
    var s1 := MarketHelpers.UpdateMarketState(s, e.address, e.blockNumber, chain);
    assert s1.(markets := s.markets) == s;
  }

  lemma SummaryFrame(s: StoreState, blockNumber: Block)
    ensures SamePositionsAndRecords(s, ProtocolHelpers.UpdateProtocolSummaryState(s, blockNumber))
  {
    var r := ProtocolHelpers.UpdateProtocolSummaryState(s, blockNumber);
    assert r.(protocol := s.protocol) == s;
    assert r.markets == s.markets && r.users == s.users && r.userMarkets == s.userMarkets;
    assert r.mints == s.mints && r.redeems == s.redeems && r.borrows == s.borrows;
    assert r.repayBorrows == s.repayBorrows && r.transfers == s.transfers && r.liquidations == s.liquidations;
  }

  lemma ProtocolWeekFrame(s: StoreState, timestamp: nat)
    ensures SamePositionsAndRecords(s, HistoricalData.UpdateProtocolWeekState(s, timestamp))
  {
    HistoricalData.UpdateProtocolWeekFrame(s, timestamp);
  }

  lemma BucketUpdateFrame(s: StoreState, p: HistoricalData.Period, marketAddress: Address, timestamp: nat)
    ensures SamePositionsAndRecords(s, HistoricalData.UpdateMarketBucketState(s, p, marketAddress, timestamp))
  {
    if marketAddress in s.markets {
      HistoricalData.UpdateMarketBucketFrame(s, p, marketAddress, timestamp);
      var r := HistoricalData.UpdateMarketBucketState(s, p, marketAddress, timestamp);
      assert HistoricalData.WithBuckets(r, p, HistoricalData.BucketsOf(s, p)) == s;
      match p
      case Hour => assert r.(hourData := s.hourData) == s;
      case Day => assert r.(dayData := s.dayData) == s;
      case Week => assert r.(weekData := s.weekData) == s;
    }
  }

  lemma RefreshPreservesValid(s: StoreState, e: EventMeta, chain: Chain)
    requires Valid(s)
    ensures DecimalsUsable(s, e.address)
    ensures Valid(RefreshState(s, e, chain))
  {
    var s1 := MarketHelpers.UpdateMarketState(s, e.address, e.blockNumber, chain);
    MarketHelpers.UpdateMarketPreservesValid(s, e.address, e.blockNumber, chain);
    var s2 := ProtocolHelpers.UpdateProtocolSummaryState(s1, e.blockNumber);
    ProtocolHelpers.UpdateProtocolSummaryPreservesValid(s1, e.blockNumber);
    var s3 := HistoricalData.UpdateMarketBucketState(s2, HistoricalData.Hour, e.address, e.timestamp);
    HistoricalData.UpdateMarketBucketPreservesValid(s2, HistoricalData.Hour, e.address, e.timestamp);
    var s4 := HistoricalData.UpdateMarketBucketState(s3, HistoricalData.Day, e.address, e.timestamp);
    HistoricalData.UpdateMarketBucketPreservesValid(s3, HistoricalData.Day, e.address, e.timestamp);
    var s5 := HistoricalData.UpdateMarketBucketState(s4, HistoricalData.Week, e.address, e.timestamp);
    HistoricalData.UpdateMarketBucketPreservesValid(s4, HistoricalData.Week, e.address, e.timestamp);
    HistoricalData.UpdateProtocolWeekPreservesValid(s5, e.timestamp);
  }

  // Position events

  /** The position id the handlers log: user address ++ market address. */
  function PositionId(userAddress: Address, marketAddress: Address): string
  {
    userAddress + marketAddress
  }

  /** The `Mint` record: amounts scaled at the underlying and the cToken decimals. */
  function MintRecord(e: EventMeta, m: Market, minter: Address, mintAmount: nat, mintTokens: nat): (r: Mint)
    ensures r.id == e.txHash && r.blockNumber == e.blockNumber && r.date == e.timestamp
    ensures r.userMarket == PositionId(minter, e.address)
    ensures r.underlyingAmount * Pow10(m.underlyingDecimals) == mintAmount as real
    ensures r.cTokenAmount * Pow10(m.cTokenDecimals) == mintTokens as real
  {
    Mint(e.txHash, e.blockNumber, e.timestamp, PositionId(minter, e.address),
         TokenAmountToDecimal(mintAmount, m.underlyingDecimals), TokenAmountToDecimal(mintTokens, m.cTokenDecimals))
  }

  /** The store after `handleMint`: nothing for an unknown market. */
  function MintState(s: StoreState, e: EventMeta, chain: Chain, minter: Address, mintAmount: nat, mintTokens: nat)
    : StoreState
  {
    if e.address !in s.markets then s
    else
      var s1 := UserMarketHelpers.UpdateUserMarketBalanceState(s, minter, e.address, e.blockNumber, chain);
      s1.(mints := s1.mints[e.txHash := MintRecord(e, s.markets[e.address], minter, mintAmount, mintTokens)])
  }

  /** `handleMint`. */
  method HandleMint(st: Store, e: EventMeta, chain: Chain, minter: Address, mintAmount: nat, mintTokens: nat)
    modifies st`users, st`userMarkets, st`mints
    ensures st.Snapshot() == MintState(old(st.Snapshot()), e, chain, minter, mintAmount, mintTokens)
  {
    if e.address !in st.markets {
      return;
    }
    var market := st.markets[e.address];
    UserMarketHelpers.UpdateUserMarketBalance(st, minter, e.address, e.blockNumber, chain);
    var userMarketId := minter + e.address;
    var mint := Mint(e.txHash, e.blockNumber, e.timestamp, userMarketId,
                     TokenAmountToDecimal(mintAmount, market.underlyingDecimals),
                     TokenAmountToDecimal(mintTokens, market.cTokenDecimals));
    st.mints := st.mints[e.txHash := mint];
  }

  /** The `Redeem` record: amounts scaled at the underlying and the cToken decimals. */
  function RedeemRecord(e: EventMeta, m: Market, redeemer: Address, redeemAmount: nat, redeemTokens: nat)
    : (r: Redeem)
    ensures r.id == e.txHash && r.blockNumber == e.blockNumber && r.date == e.timestamp
    ensures r.userMarket == PositionId(redeemer, e.address)
    ensures r.underlyingAmount * Pow10(m.underlyingDecimals) == redeemAmount as real
    ensures r.cTokenAmount * Pow10(m.cTokenDecimals) == redeemTokens as real
  {
    Redeem(e.txHash, e.blockNumber, e.timestamp, PositionId(redeemer, e.address),
           TokenAmountToDecimal(redeemAmount, m.underlyingDecimals),
           TokenAmountToDecimal(redeemTokens, m.cTokenDecimals))
  }

  /** The store after `handleRedeem`: nothing for an unknown market. */
  function RedeemState(s: StoreState, e: EventMeta, chain: Chain, redeemer: Address, redeemAmount: nat,
                       redeemTokens: nat): StoreState
  {
    if e.address !in s.markets then s
    else
      var s1 := UserMarketHelpers.UpdateUserMarketBalanceState(s, redeemer, e.address, e.blockNumber, chain);
      s1.(redeems := s1.redeems[e.txHash := RedeemRecord(e, s.markets[e.address], redeemer, redeemAmount,
                                                          redeemTokens)])
  }

  /** `handleRedeem`. */
  method HandleRedeem(st: Store, e: EventMeta, chain: Chain, redeemer: Address, redeemAmount: nat,
                      redeemTokens: nat)
    modifies st`users, st`userMarkets, st`redeems
    ensures st.Snapshot() == RedeemState(old(st.Snapshot()), e, chain, redeemer, redeemAmount, redeemTokens)
  {
    if e.address !in st.markets {
      return;
    }
    var market := st.markets[e.address];
    UserMarketHelpers.UpdateUserMarketBalance(st, redeemer, e.address, e.blockNumber, chain);
    var userMarketId := redeemer + e.address;
    var redeem := Redeem(e.txHash, e.blockNumber, e.timestamp, userMarketId,
                         TokenAmountToDecimal(redeemAmount, market.underlyingDecimals),
                         TokenAmountToDecimal(redeemTokens, market.cTokenDecimals));
    st.redeems := st.redeems[e.txHash := redeem];
  }

  /** The `Borrow` record: the amount scaled at the underlying decimals. */
  function BorrowRecord(e: EventMeta, m: Market, borrower: Address, borrowAmount: nat): (r: Borrow)
    ensures r.id == e.txHash && r.blockNumber == e.blockNumber && r.date == e.timestamp
    ensures r.userMarket == PositionId(borrower, e.address)
    ensures r.underlyingAmount * Pow10(m.underlyingDecimals) == borrowAmount as real
  {
    Borrow(e.txHash, e.blockNumber, e.timestamp, PositionId(borrower, e.address),
           TokenAmountToDecimal(borrowAmount, m.underlyingDecimals))
  }

  /** The store after `handleBorrow`: nothing for an unknown market. */
  function BorrowState(s: StoreState, e: EventMeta, chain: Chain, borrower: Address, borrowAmount: nat)
    : StoreState
  {
    if e.address !in s.markets then s
    else
      var s1 := UserMarketHelpers.UpdateUserMarketBalanceState(s, borrower, e.address, e.blockNumber, chain);
      s1.(borrows := s1.borrows[e.txHash := BorrowRecord(e, s.markets[e.address], borrower, borrowAmount)])
  }

  /** `handleBorrow`. */
  method HandleBorrow(st: Store, e: EventMeta, chain: Chain, borrower: Address, borrowAmount: nat)
    modifies st`users, st`userMarkets, st`borrows
    ensures st.Snapshot() == BorrowState(old(st.Snapshot()), e, chain, borrower, borrowAmount)
  {
    if e.address !in st.markets {
      return;
    }
    var market := st.markets[e.address];
    UserMarketHelpers.UpdateUserMarketBalance(st, borrower, e.address, e.blockNumber, chain);
    var userMarketId := borrower + e.address;
    var borrow := Borrow(e.txHash, e.blockNumber, e.timestamp, userMarketId,
                         TokenAmountToDecimal(borrowAmount, market.underlyingDecimals));
    st.borrows := st.borrows[e.txHash := borrow];
  }

  /** The `RepayBorrow` record: the amount scaled at the underlying decimals. */
  function RepayBorrowRecord(e: EventMeta, m: Market, borrower: Address, repayAmount: nat): (r: RepayBorrow)
    ensures r.id == e.txHash && r.blockNumber == e.blockNumber && r.date == e.timestamp
    ensures r.userMarket == PositionId(borrower, e.address)
    ensures r.underlyingAmount * Pow10(m.underlyingDecimals) == repayAmount as real
  {
    RepayBorrow(e.txHash, e.blockNumber, e.timestamp, PositionId(borrower, e.address),
                TokenAmountToDecimal(repayAmount, m.underlyingDecimals))
  }

  /** The store after `handleRepayBorrow`: nothing for an unknown market. */
  function RepayBorrowState(s: StoreState, e: EventMeta, chain: Chain, borrower: Address, repayAmount: nat)
    : StoreState
  {
    if e.address !in s.markets then s
    else
      var s1 := UserMarketHelpers.UpdateUserMarketBalanceState(s, borrower, e.address, e.blockNumber, chain);
      s1.(repayBorrows := s1.repayBorrows[e.txHash := RepayBorrowRecord(e, s.markets[e.address], borrower,
                                                                         repayAmount)])
  }

  /** `handleRepayBorrow`. */
  method HandleRepayBorrow(st: Store, e: EventMeta, chain: Chain, borrower: Address, repayAmount: nat)
    modifies st`users, st`userMarkets, st`repayBorrows
    ensures st.Snapshot() == RepayBorrowState(old(st.Snapshot()), e, chain, borrower, repayAmount)
  {
    if e.address !in st.markets {
      return;
    }
    var market := st.markets[e.address];
    UserMarketHelpers.UpdateUserMarketBalance(st, borrower, e.address, e.blockNumber, chain);
    var userMarketId := borrower + e.address;
    var repayBorrow := RepayBorrow(e.txHash, e.blockNumber, e.timestamp, userMarketId,
                                   TokenAmountToDecimal(repayAmount, market.underlyingDecimals));
    st.repayBorrows := st.repayBorrows[e.txHash := repayBorrow];
  }

  /**
   * The `Liquidation` record: the borrower's positions in the liquidated and
   * the seized market and the liquidator's position in the seized market; the
   * repaid amount at the liquidated market's underlying decimals and the
   * seized amount at the seized market's cToken decimals.
   */
  function LiquidationRecord(e: EventMeta, liquidationMarket: Market, seizeMarket: Market, borrower: Address,
                             liquidator: Address, cTokenCollateral: Address, repayAmount: nat, seizeTokens: nat)
    : (r: Liquidation)
    ensures r.id == e.txHash && r.blockNumber == e.blockNumber && r.date == e.timestamp
    ensures r.borrowerUserLiquidationMarket == PositionId(borrower, e.address)
    ensures r.borrowerUserSeizeMarket == PositionId(borrower, cTokenCollateral)
    ensures r.liquidatorUserMarket == PositionId(liquidator, cTokenCollateral)
    ensures r.repayAmount * Pow10(liquidationMarket.underlyingDecimals) == repayAmount as real
    ensures r.seizeAmount * Pow10(seizeMarket.cTokenDecimals) == seizeTokens as real
  {
    Liquidation(e.txHash, e.blockNumber, e.timestamp, PositionId(borrower, e.address),
                PositionId(borrower, cTokenCollateral), PositionId(liquidator, cTokenCollateral),
                TokenAmountToDecimal(repayAmount, liquidationMarket.underlyingDecimals),
                TokenAmountToDecimal(seizeTokens, seizeMarket.cTokenDecimals))
  }

  /** The three balance refreshes of a liquidation, in the source's order. */
  function LiquidationPositionsState(s: StoreState, e: EventMeta, chain: Chain, borrower: Address,
                                     liquidator: Address, cTokenCollateral: Address): (r: StoreState)
    ensures r.markets == s.markets
  {
    var s1 := UserMarketHelpers.UpdateUserMarketBalanceState(s, borrower, e.address, e.blockNumber, chain);
    var s2 := UserMarketHelpers.UpdateUserMarketBalanceState(s1, borrower, cTokenCollateral, e.blockNumber, chain);
    UserMarketHelpers.UpdateUserMarketBalanceState(s2, liquidator, cTokenCollateral, e.blockNumber, chain)
  }

  /** The store after `handleLiquidateBorrow`: nothing unless both markets are stored. */
  function LiquidateBorrowState(s: StoreState, e: EventMeta, chain: Chain, borrower: Address, liquidator: Address,
                                cTokenCollateral: Address, repayAmount: nat, seizeTokens: nat): StoreState
  {
    if e.address !in s.markets || cTokenCollateral !in s.markets then s
    else
      var s3 := LiquidationPositionsState(s, e, chain, borrower, liquidator, cTokenCollateral);
      var record := LiquidationRecord(e, s.markets[e.address], s.markets[cTokenCollateral], borrower, liquidator,
                                      cTokenCollateral, repayAmount, seizeTokens);
      s3.(liquidations := s3.liquidations[e.txHash := record])
  }

  /** `handleLiquidateBorrow`. */
  method HandleLiquidateBorrow(st: Store, e: EventMeta, chain: Chain, borrower: Address, liquidator: Address,
                               cTokenCollateral: Address, repayAmount: nat, seizeTokens: nat)
    modifies st`users, st`userMarkets, st`liquidations
    ensures st.Snapshot() == LiquidateBorrowState(old(st.Snapshot()), e, chain, borrower, liquidator,
                                                  cTokenCollateral, repayAmount, seizeTokens)
  {
    if e.address !in st.markets || cTokenCollateral !in st.markets {
      return;
    }
    var seizeMarket := st.markets[cTokenCollateral];
    var liquidationMarket := st.markets[e.address];
    UserMarketHelpers.UpdateUserMarketBalance(st, borrower, e.address, e.blockNumber, chain);
    UserMarketHelpers.UpdateUserMarketBalance(st, borrower, cTokenCollateral, e.blockNumber, chain);
    UserMarketHelpers.UpdateUserMarketBalance(st, liquidator, cTokenCollateral, e.blockNumber, chain);
    var liquidation := Liquidation(e.txHash, e.blockNumber, e.timestamp, borrower + e.address,
                                   borrower + cTokenCollateral, liquidator + cTokenCollateral,
                                   TokenAmountToDecimal(repayAmount, liquidationMarket.underlyingDecimals),
                                   TokenAmountToDecimal(seizeTokens, seizeMarket.cTokenDecimals));
    st.liquidations := st.liquidations[e.txHash := liquidation];
  }

  /** The `Transfer` record: the amount scaled at the cToken decimals. */
  function TransferRecord(e: EventMeta, m: Market, from: Address, to: Address, amount: nat): (r: Transfer)
    ensures r.id == e.txHash && r.blockNumber == e.blockNumber && r.date == e.timestamp
    ensures r.fromUserMarket == PositionId(from, e.address) && r.toUserMarket == PositionId(to, e.address)
    ensures r.cTokenAmount * Pow10(m.cTokenDecimals) == amount as real
  {
    Transfer(e.txHash, e.blockNumber, e.timestamp, PositionId(from, e.address), PositionId(to, e.address),
             TokenAmountToDecimal(amount, m.cTokenDecimals))
  }

  /** The positions and the record of a wallet-to-wallet transfer, before the refresh. */
  function TransferRecordState(s: StoreState, e: EventMeta, chain: Chain, from: Address, to: Address, amount: nat)
    : (r: StoreState)
    requires e.address in s.markets
    ensures r.markets == s.markets
  {
    var s1 := UserMarketHelpers.UpdateUserMarketBalanceState(s, from, e.address, e.blockNumber, chain);
    var s2 := UserMarketHelpers.UpdateUserMarketBalanceState(s1, to, e.address, e.blockNumber, chain);
    s2.(transfers := s2.transfers[e.txHash := TransferRecord(e, s.markets[e.address], from, to, amount)])
  }

  /**
   * The store after `handleTransfer`: nothing when either side is the market
   * itself (mint, redeem and seizure legs) or the market is unknown; otherwise
   * both positions refreshed, the record logged, then the market, protocol and
   * history refresh that no accrual event triggered.
   */
  function TransferState(s: StoreState, e: EventMeta, chain: Chain, from: Address, to: Address, amount: nat)
    : StoreState
    requires DecimalsUsable(s, e.address)
  {
    if from == e.address || to == e.address then s
    else if e.address !in s.markets then s
    else RefreshState(TransferRecordState(s, e, chain, from, to, amount), e, chain)
  }

  /** `handleTransfer`. */
  method HandleTransfer(st: Store, e: EventMeta, chain: Chain, from: Address, to: Address, amount: nat)
    requires DecimalsUsable(st.Snapshot(), e.address)
    modifies st`users, st`userMarkets, st`transfers
    modifies st`markets, st`protocol, st`hourData, st`dayData, st`weekData, st`protocolWeekData
    ensures st.Snapshot() == TransferState(old(st.Snapshot()), e, chain, from, to, amount)
  {
    if from == e.address || to == e.address {
      return;
    }
    if e.address !in st.markets {
      return;
    }
    var market := st.markets[e.address];
    UserMarketHelpers.UpdateUserMarketBalance(st, from, e.address, e.blockNumber, chain);
    UserMarketHelpers.UpdateUserMarketBalance(st, to, e.address, e.blockNumber, chain);
    var transfer := Transfer(e.txHash, e.blockNumber, e.timestamp, from + e.address, to + e.address,
                             TokenAmountToDecimal(amount, market.cTokenDecimals));
    st.transfers := st.transfers[e.txHash := transfer];
    assert st.Snapshot() == TransferRecordState(old(st.Snapshot()), e, chain, from, to, amount);
    Refresh(st, e, chain);
  }

  // Properties of the handlers

  /** Events of an address that is not a stored market write nothing. */
  lemma UnknownMarketEventsIgnored(s: StoreState, e: EventMeta, chain: Chain, user: Address, other: Address,
                                   collateral: Address, amount: nat, tokens: nat)
    requires e.address !in s.markets
    ensures MintState(s, e, chain, user, amount, tokens) == s
    ensures RedeemState(s, e, chain, user, amount, tokens) == s
    ensures BorrowState(s, e, chain, user, amount) == s
    ensures RepayBorrowState(s, e, chain, user, amount) == s
    ensures LiquidateBorrowState(s, e, chain, user, other, collateral, amount, tokens) == s
    ensures TransferState(s, e, chain, user, other, amount) == s
  {
  }

  /** Transfers from or to the market itself are left to the mint, redeem and liquidation handlers. */
  lemma TransfersWithTheMarketIgnored(s: StoreState, e: EventMeta, chain: Chain, from: Address, to: Address,
                                      amount: nat)
    requires DecimalsUsable(s, e.address)
    requires from == e.address || to == e.address
    ensures TransferState(s, e, chain, from, to, amount) == s
  {
  }

  /**
   * A mint writes the minter's user, the minter's position and the record
   * under the transaction hash, which replaces any record already there.
   */
  lemma MintFrame(s: StoreState, e: EventMeta, chain: Chain, minter: Address, mintAmount: nat, mintTokens: nat)
    requires e.address in s.markets
    ensures
      var r := MintState(s, e, chain, minter, mintAmount, mintTokens);
      var key := PositionId(minter, e.address);
      && r.(users := s.users, userMarkets := s.userMarkets, mints := s.mints) == s
      && r.userMarkets.Keys == s.userMarkets.Keys + {key}
      && (forall k :: k in s.userMarkets && k != key ==> r.userMarkets[k] == s.userMarkets[k])
      && r.mints == s.mints[e.txHash := MintRecord(e, s.markets[e.address], minter, mintAmount, mintTokens)]
  {
    UserMarketHelpers.UpdateUserMarketBalanceFrame(s, minter, e.address, e.blockNumber, chain);
    UserMarketHelpers.UpdateUserMarketBalanceKeys(s, minter, e.address, e.blockNumber, chain);
  }

  /** A liquidation creates or refreshes exactly the three positions its record names. */
  lemma LiquidationTouchesThreePositions(s: StoreState, e: EventMeta, chain: Chain, borrower: Address,
                                         liquidator: Address, cTokenCollateral: Address)
    requires e.address in s.markets && cTokenCollateral in s.markets
    ensures
      var r := LiquidationPositionsState(s, e, chain, borrower, liquidator, cTokenCollateral);
      var touched := {PositionId(borrower, e.address), PositionId(borrower, cTokenCollateral),
                      PositionId(liquidator, cTokenCollateral)};
      && r.userMarkets.Keys == s.userMarkets.Keys + touched
      && (forall k :: k in s.userMarkets && k !in touched ==> r.userMarkets[k] == s.userMarkets[k])
  {
    var s1 := UserMarketHelpers.UpdateUserMarketBalanceState(s, borrower, e.address, e.blockNumber, chain);
    var s2 := UserMarketHelpers.UpdateUserMarketBalanceState(s1, borrower, cTokenCollateral, e.blockNumber, chain);
    var r := UserMarketHelpers.UpdateUserMarketBalanceState(s2, liquidator, cTokenCollateral, e.blockNumber, chain);
    assert r == LiquidationPositionsState(s, e, chain, borrower, liquidator, cTokenCollateral);
    UserMarketHelpers.UpdateUserMarketBalanceKeys(s, borrower, e.address, e.blockNumber, chain);
    UserMarketHelpers.UpdateUserMarketBalanceKeys(s1, borrower, cTokenCollateral, e.blockNumber, chain);
    UserMarketHelpers.UpdateUserMarketBalanceKeys(s2, liquidator, cTokenCollateral, e.blockNumber, chain);
    ThreeWrites(s.userMarkets, s1.userMarkets, s2.userMarkets, r.userMarkets, PositionId(borrower, e.address),
                PositionId(borrower, cTokenCollateral), PositionId(liquidator, cTokenCollateral));
  }

  /** Three single-key writes in a row touch exactly those three keys. */
  lemma ThreeWrites<V>(m0: map<string, V>, m1: map<string, V>, m2: map<string, V>, m3: map<string, V>,
                       k1: string, k2: string, k3: string)
    requires m1.Keys == m0.Keys + {k1} && forall k :: k in m0 && k != k1 ==> m1[k] == m0[k]
    requires m2.Keys == m1.Keys + {k2} && forall k :: k in m1 && k != k2 ==> m2[k] == m1[k]
    requires m3.Keys == m2.Keys + {k3} && forall k :: k in m2 && k != k3 ==> m3[k] == m2[k]
    ensures m3.Keys == m0.Keys + {k1, k2, k3}
    ensures forall k :: k in m0 && k !in {k1, k2, k3} ==> m3[k] == m0[k]
  {
  }

  /** Both sides of a wallet-to-wallet transfer get a position, and the record names them. */
  lemma TransferPositions(s: StoreState, e: EventMeta, chain: Chain, from: Address, to: Address, amount: nat)
    requires e.address in s.markets
    ensures
      var r := TransferRecordState(s, e, chain, from, to, amount);
      && r.userMarkets.Keys == s.userMarkets.Keys + {PositionId(from, e.address), PositionId(to, e.address)}
      && r.transfers[e.txHash].fromUserMarket in r.userMarkets
      && r.transfers[e.txHash].toUserMarket in r.userMarkets
  {
    var s1 := UserMarketHelpers.UpdateUserMarketBalanceState(s, from, e.address, e.blockNumber, chain);
    UserMarketHelpers.UpdateUserMarketBalanceKeys(s, from, e.address, e.blockNumber, chain);
    UserMarketHelpers.UpdateUserMarketBalanceKeys(s1, to, e.address, e.blockNumber, chain);
  }

  // The store invariant across the handlers

  lemma MintPreservesValid(s: StoreState, e: EventMeta, chain: Chain, minter: Address, mintAmount: nat,
                           mintTokens: nat)
    requires Valid(s)
    ensures Valid(MintState(s, e, chain, minter, mintAmount, mintTokens))
  {
    if e.address in s.markets {
      var s1 := UserMarketHelpers.UpdateUserMarketBalanceState(s, minter, e.address, e.blockNumber, chain);
      UserMarketHelpers.UpdateUserMarketBalancePreservesValid(s, minter, e.address, e.blockNumber, chain);
      UserMarketHelpers.UpdateUserMarketBalanceKeys(s, minter, e.address, e.blockNumber, chain);
      var record := MintRecord(e, s.markets[e.address], minter, mintAmount, mintTokens);
      assert MintState(s, e, chain, minter, mintAmount, mintTokens) == s1.(mints := s1.mints[e.txHash := record]);
      ValidAfterMintWrite(s1, e.txHash, record);
    }
  }

  lemma RedeemPreservesValid(s: StoreState, e: EventMeta, chain: Chain, redeemer: Address, redeemAmount: nat,
                             redeemTokens: nat)
    requires Valid(s)
    ensures Valid(RedeemState(s, e, chain, redeemer, redeemAmount, redeemTokens))
  {
    if e.address in s.markets {
      var s1 := UserMarketHelpers.UpdateUserMarketBalanceState(s, redeemer, e.address, e.blockNumber, chain);
      UserMarketHelpers.UpdateUserMarketBalancePreservesValid(s, redeemer, e.address, e.blockNumber, chain);
      UserMarketHelpers.UpdateUserMarketBalanceKeys(s, redeemer, e.address, e.blockNumber, chain);
      var record := RedeemRecord(e, s.markets[e.address], redeemer, redeemAmount, redeemTokens);
      assert RedeemState(s, e, chain, redeemer, redeemAmount, redeemTokens)
          == s1.(redeems := s1.redeems[e.txHash := record]);
      ValidAfterRedeemWrite(s1, e.txHash, record);
    }
  }

  lemma BorrowPreservesValid(s: StoreState, e: EventMeta, chain: Chain, borrower: Address, borrowAmount: nat)
    requires Valid(s)
    ensures Valid(BorrowState(s, e, chain, borrower, borrowAmount))
  {
    if e.address in s.markets {
      var s1 := UserMarketHelpers.UpdateUserMarketBalanceState(s, borrower, e.address, e.blockNumber, chain);
      UserMarketHelpers.UpdateUserMarketBalancePreservesValid(s, borrower, e.address, e.blockNumber, chain);
      UserMarketHelpers.UpdateUserMarketBalanceKeys(s, borrower, e.address, e.blockNumber, chain);
      var record := BorrowRecord(e, s.markets[e.address], borrower, borrowAmount);
      assert BorrowState(s, e, chain, borrower, borrowAmount) == s1.(borrows := s1.borrows[e.txHash := record]);
      ValidAfterBorrowWrite(s1, e.txHash, record);
    }
  }

  lemma RepayBorrowPreservesValid(s: StoreState, e: EventMeta, chain: Chain, borrower: Address, repayAmount: nat)
    requires Valid(s)
    ensures Valid(RepayBorrowState(s, e, chain, borrower, repayAmount))
  {
    if e.address in s.markets {
      var s1 := UserMarketHelpers.UpdateUserMarketBalanceState(s, borrower, e.address, e.blockNumber, chain);
      UserMarketHelpers.UpdateUserMarketBalancePreservesValid(s, borrower, e.address, e.blockNumber, chain);
      UserMarketHelpers.UpdateUserMarketBalanceKeys(s, borrower, e.address, e.blockNumber, chain);
      var record := RepayBorrowRecord(e, s.markets[e.address], borrower, repayAmount);
      assert RepayBorrowState(s, e, chain, borrower, repayAmount)
          == s1.(repayBorrows := s1.repayBorrows[e.txHash := record]);
      ValidAfterRepayBorrowWrite(s1, e.txHash, record);
    }
  }

  lemma LiquidateBorrowPreservesValid(s: StoreState, e: EventMeta, chain: Chain, borrower: Address,
                                      liquidator: Address, cTokenCollateral: Address, repayAmount: nat,
                                      seizeTokens: nat)
    requires Valid(s)
    ensures Valid(LiquidateBorrowState(s, e, chain, borrower, liquidator, cTokenCollateral, repayAmount,
                                       seizeTokens))
  {
    if e.address in s.markets && cTokenCollateral in s.markets {
      var s1 := UserMarketHelpers.UpdateUserMarketBalanceState(s, borrower, e.address, e.blockNumber, chain);
      var s2 := UserMarketHelpers.UpdateUserMarketBalanceState(s1, borrower, cTokenCollateral, e.blockNumber, chain);
      var s3 := LiquidationPositionsState(s, e, chain, borrower, liquidator, cTokenCollateral);
      UserMarketHelpers.UpdateUserMarketBalancePreservesValid(s, borrower, e.address, e.blockNumber, chain);
      UserMarketHelpers.UpdateUserMarketBalancePreservesValid(s1, borrower, cTokenCollateral, e.blockNumber, chain);
      UserMarketHelpers.UpdateUserMarketBalancePreservesValid(s2, liquidator, cTokenCollateral, e.blockNumber,
                                                              chain);
      assert Valid(s3);
      LiquidationTouchesThreePositions(s, e, chain, borrower, liquidator, cTokenCollateral);
      var record := LiquidationRecord(e, s.markets[e.address], s.markets[cTokenCollateral], borrower, liquidator,
                                      cTokenCollateral, repayAmount, seizeTokens);
      assert LiquidateBorrowState(s, e, chain, borrower, liquidator, cTokenCollateral, repayAmount, seizeTokens)
          == s3.(liquidations := s3.liquidations[e.txHash := record]);
      ValidAfterLiquidationWrite(s3, e.txHash, record);
    }
  }

  lemma TransferPreservesValid(s: StoreState, e: EventMeta, chain: Chain, from: Address, to: Address, amount: nat)
    requires Valid(s)
    ensures DecimalsUsable(s, e.address)
    ensures Valid(TransferState(s, e, chain, from, to, amount))
  {
    if from != e.address && to != e.address && e.address in s.markets {
      var s1 := UserMarketHelpers.UpdateUserMarketBalanceState(s, from, e.address, e.blockNumber, chain);
      var s2 := UserMarketHelpers.UpdateUserMarketBalanceState(s1, to, e.address, e.blockNumber, chain);
      UserMarketHelpers.UpdateUserMarketBalancePreservesValid(s, from, e.address, e.blockNumber, chain);
      UserMarketHelpers.UpdateUserMarketBalancePreservesValid(s1, to, e.address, e.blockNumber, chain);
      TransferPositions(s, e, chain, from, to, amount);
      var s3 := TransferRecordState(s, e, chain, from, to, amount);
      var record := TransferRecord(e, s.markets[e.address], from, to, amount);
      assert s3 == s2.(transfers := s2.transfers[e.txHash := record]);
      ValidAfterTransferWrite(s2, e.txHash, record);
      RefreshPreservesValid(s3, e, chain);
    }
  }
}
