/** The entities the indexer stores; field names follow the subgraph schema. */
module Schema {
  import opened Contracts

  datatype Protocol = Protocol(
    id: string,
    priceOracle: Address,
    lastNewOracleBlockNumber: Block,
    latestBlockNumber: Block,
    markets: seq<string>,
    totalSupplyUsd: real,
    totalBorrowUsd: real,
    totalReservesUsd: real,
    utalization: real
  )

  datatype Market = Market(
    id: string,
    creationBlockNumber: Block,
    latestBlockNumber: Block,
    cTokenSymbol: string,
    cTokenDecimals: int,
    underlyingName: string,
    underlyingSymbol: string,
    underlyingAddress: Address,
    underlyingDecimals: int,
    collatoralFactor: real,
    reserveFactor: real,
    cash: real,
    exchangeRate: real,
    supplyRate: real,
    borrowRate: real,
    supplyApy: real,
    borrowApy: real,
    totalSupplyApy: real,
    totalBorrowApy: real,
    totalSupply: real,
    totalBorrow: real,
    totalReserves: real,
    utalization: real,
    numberOfSuppliers: int,
    numberOfborrowers: int,
    usdcPerUnderlying: real,
    ethPerUnderlying: real,
    usdcPerEth: real,
    usdcPerComp: real,
    underlyingPerCToken: real
  )

  datatype User = User(id: string, creationBlockNumber: Block, lastBlockNumber: Block)

  datatype UserMarket = UserMarket(
    id: string,
    user: string,
    market: string,
    creationBlockNumber: Block,
    latestBlockNumber: Block,
    enteredMarket: bool,
    totalSupply: real,
    totalBorrow: real,
    cTokenBalance: real
  )

  /** MarketHourData, MarketDayData and MarketWeekData share this shape. */
  datatype MarketBucket = MarketBucket(
    id: string,
    market: string,
    date: nat,
    supplyApy: real,
    borrowApy: real,
    totalSupplyApy: real,
    totalBorrowApy: real,
    totalSupply: real,
    totalBorrow: real,
    totalReserves: real,
    utalization: real,
    usdcPerUnderlying: real,
    usdcPerEth: real,
    usdcPerComp: real,
    txCount: nat
  )

  datatype ProtocolBucket = ProtocolBucket(
    id: string,
    date: nat,
    totalSupplyUsd: real,
    totalBorrowUsd: real,
    totalReservesUsd: real,
    utalization: real,
    txCount: nat
  )

  // Event-log records, each keyed by its transaction hash.

  datatype Mint = Mint(id: string, blockNumber: Block, date: nat, userMarket: string,
                       underlyingAmount: real, cTokenAmount: real)

  datatype Redeem = Redeem(id: string, blockNumber: Block, date: nat, userMarket: string,
                           underlyingAmount: real, cTokenAmount: real)

  datatype Borrow = Borrow(id: string, blockNumber: Block, date: nat, userMarket: string,
                           underlyingAmount: real)

  datatype RepayBorrow = RepayBorrow(id: string, blockNumber: Block, date: nat, userMarket: string,
                                     underlyingAmount: real)

  datatype Transfer = Transfer(id: string, blockNumber: Block, date: nat, fromUserMarket: string,
                               toUserMarket: string, cTokenAmount: real)

  datatype Liquidation = Liquidation(id: string, blockNumber: Block, date: nat,
                                     borrowerUserLiquidationMarket: string,
                                     borrowerUserSeizeMarket: string,
                                     liquidatorUserMarket: string,
                                     repayAmount: real, seizeAmount: real)
}
