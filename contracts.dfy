/**
 * The on-chain reads the indexer makes, pinned to a block. Each contract method
 * is a function of (contract address, [argument,] block); the `try*` ones yield
 * None when the call reverts. The other reads cannot revert in this model.
 */
module Contracts {
  import opened Wrappers

  /** An address in its lower-case hex string form (`toHexString`). */
  type Address = string
  type Block = nat

  datatype Chain = Chain(
    // CToken
    symbol: (Address, Block) -> string,
    decimals: (Address, Block) -> int,
    underlying: (Address, Block) -> Address,
    accrualBlockNumber: (Address, Block) -> Block,
    totalSupply: (Address, Block) -> int,
    exchangeRateStored: (Address, Block) -> int,
    totalReserves: (Address, Block) -> int,
    totalBorrows: (Address, Block) -> int,
    getCash: (Address, Block) -> int,
    borrowRatePerBlock: (Address, Block) -> int,
    trySupplyRatePerBlock: (Address, Block) -> Option<int>,
    tryBalanceOf: (Address, Address, Block) -> Option<int>,
    tryBorrowBalanceCurrent: (Address, Address, Block) -> Option<int>,
    // ERC20
    erc20Name: (Address, Block) -> string,
    erc20Symbol: (Address, Block) -> string,
    erc20Decimals: (Address, Block) -> int,
    // PriceOracle1.getPrice(token), PriceOracle2.try_getUnderlyingPrice(cToken), first argument the oracle
    oracle1GetPrice: (Address, Address, Block) -> int,
    oracle2TryGetUnderlyingPrice: (Address, Address, Block) -> Option<int>
  )
}
